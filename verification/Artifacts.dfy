/**
 The versioned store of model-written artifacts: records, append-only batches with replay receipts, and the write
 claims that guard them (src/purra/adapters/durable_memory.py, InMemoryArtifactStore).
 */
module Artifacts {
  import opened Prelude
  import Lexical

  datatype Status = Open | Finalized | Aborted

  datatype Owner = Owner(namespace: string, kind: string, owner: string, refKind: string, refId: string)

  datatype CreateCommand = CreateCommand(
    owner: Owner, createdBy: string, schema: pos, expectedItems: Option<nat>, metadata: map<string, string>)

  datatype Artifact = Artifact(
    id: string, created: CreateCommand, status: Status, revision: pos, nextSequence: pos, committedItems: nat,
    resource: Option<string>, coverage: Option<string>)

  /** What the content digest of a batch covers. */
  datatype Content = Content(artifact: string, sequence: pos, batch: string, items: seq<string>, coverage: seq<string>)

  datatype Batch = Batch(content: Content, key: string, committedRevision: pos)

  datatype Receipt = Receipt(
    artifact: string, batch: string, sequence: pos, committedRevision: pos, nextSequence: pos, accepted: nat)

  datatype Claim = Claim(artifact: string, run: string, token: nat, revision: pos, expires: nat)

  datatype Lease = Lease(run: string, token: nat, duration: pos)

  datatype AppendCommand = AppendCommand(content: Content, key: string, expectedRevision: pos, lease: Lease)

  /** Claim tokens are random in the source; here they are numbered in the order of issue. */
  datatype Store = Store(
    artifacts: map<string, Artifact>, owners: map<Owner, string>, batches: map<string, seq<Batch>>,
    receipts: map<(string, string), Receipt>, digests: map<(string, string), Content>, claims: map<string, Claim>,
    updated: map<string, nat>, nextToken: nat)

  const EMPTY := Store(map[], map[], map[], map[], map[], map[], map[], 0)

  datatype Fault = IdConflict | OwnerConflict | NotFound | NotOpen | RevisionConflict | SequenceConflict
    | IdempotencyConflict | ClaimConflict | ClaimInvalid

  datatype Reply = Stored(artifact: Artifact) | Receipted(receipt: Receipt, replayed: bool) | Claimed(claim: Claim)
    | Released(count: nat) | Report(expired: nat, unavailable: nat, invalid: nat, purged: nat) | Refused(fault: Fault)

  datatype Result = Result(store: Store, reply: Reply)

  // ----- checks -------------------------------------------------------------

  /** Why the artifact cannot be written at this revision, if it cannot. */
  function WriteFault(s: Store, id: string, expected: pos): Option<Fault> {
    if id !in s.artifacts then Some(NotFound)
    else if !s.artifacts[id].status.Open? then Some(NotOpen)
    else if s.artifacts[id].revision != expected then Some(RevisionConflict)
    else None
  }

  predicate Active(s: Store, id: string, now: nat) { id in s.claims && s.claims[id].expires > now }

  /** The claim under which this Run may write now. */
  predicate Accepts(s: Store, id: string, now: nat, run: string, token: nat) {
    && Active(s, id, now) && s.claims[id].run == run && s.claims[id].token == token
    && id in s.artifacts && s.claims[id].revision == s.artifacts[id].revision
  }

  // ----- operations ---------------------------------------------------------

  function NewArtifact(id: string, command: CreateCommand): Artifact {
    Artifact(id, command, Open, 1, 1, 0, None, None)
  }

  function Create(s: Store, now: nat, id: string, command: CreateCommand): Result {
    var candidate := NewArtifact(id, command);
    if id in s.artifacts then
      Result(s, if s.artifacts[id] == candidate then Stored(candidate) else Refused(IdConflict))
    else if command.owner in s.owners && s.owners[command.owner] in s.artifacts then
      var owned := s.artifacts[s.owners[command.owner]];
      Result(s, if owned.created == command then Stored(owned) else Refused(OwnerConflict))
    else
      Result(s.(artifacts := s.artifacts[id := candidate], owners := s.owners[command.owner := id],
                batches := s.batches[id := []], updated := s.updated[id := now]), Stored(candidate))
  }

  function ReceiptOf(b: Batch): Receipt {
    Receipt(b.content.artifact, b.content.batch, b.content.sequence, b.committedRevision, b.content.sequence + 1,
            |b.content.items|)
  }

  /** The answer to a command whose idempotency key was used before. */
  function Replay(s: Store, command: AppendCommand): Option<Reply> {
    var at := (command.content.artifact, command.key);
    if at !in s.receipts then None
    else if at !in s.digests || s.digests[at] != command.content then Some(Refused(IdempotencyConflict))
    else Some(Receipted(s.receipts[at], true))
  }

  function Append(s: Store, now: nat, command: AppendCommand): Result {
    var id := command.content.artifact;
    var replay := Replay(s, command);
    var fault := WriteFault(s, id, command.expectedRevision);
    if replay.Some? then Result(s, replay.value)
    else if fault.Some? then Result(s, Refused(fault.value))
    else if s.artifacts[id].nextSequence != command.content.sequence then Result(s, Refused(SequenceConflict))
    else if !Accepts(s, id, now, command.lease.run, command.lease.token) then Result(s, Refused(ClaimInvalid))
    else
      var batch := Batch(command.content, command.key, s.artifacts[id].revision + 1);
      Result(Appended(s, now, id, batch, command.lease.duration), Receipted(ReceiptOf(batch), false))
  }

  function Appended(s: Store, now: nat, id: string, batch: Batch, duration: pos): Store
    requires id in s.claims && id in s.artifacts
  {
    var artifact := s.artifacts[id];
    var next := artifact.(revision := batch.committedRevision, nextSequence := batch.content.sequence + 1,
                          committedItems := artifact.committedItems + |batch.content.items|);
    s.(artifacts := s.artifacts[id := next],
       batches := s.batches[id := (if id in s.batches then s.batches[id] else []) + [batch]],
       receipts := s.receipts[(id, batch.key) := ReceiptOf(batch)],
       digests := s.digests[(id, batch.key) := batch.content],
       claims := s.claims[id := s.claims[id].(revision := batch.committedRevision, expires := now + duration)],
       updated := s.updated[id := now])
  }

  /** Finalizing (with a resource and a coverage digest) or aborting (without). */
  function Close(s: Store, now: nat, id: string, expected: pos, lease: Lease, outcome: Option<(Option<string>, string)>): Result {
    var fault := WriteFault(s, id, expected);
    if fault.Some? then Result(s, Refused(fault.value))
    else if !Accepts(s, id, now, lease.run, lease.token) then Result(s, Refused(ClaimInvalid))
    else
      var later := s.artifacts[id].(revision := s.artifacts[id].revision + 1);
      var closed := if outcome.None? then later.(status := Aborted)
                    else later.(status := Finalized, resource := outcome.value.0, coverage := Some(outcome.value.1));
      Result(s.(artifacts := s.artifacts[id := closed], claims := s.claims - {id}, updated := s.updated[id := now]),
             Stored(closed))
  }

  function Acquire(s: Store, now: nat, id: string, run: string, expected: pos, duration: pos): Result {
    var fault := WriteFault(s, id, expected);
    if fault.Some? then Result(s, Refused(fault.value))
    else if Active(s, id, now) then
      Result(s, if s.claims[id].run == run && s.claims[id].revision == expected then Claimed(s.claims[id])
                else Refused(ClaimConflict))
    else
      var claim := Claim(id, run, s.nextToken, s.artifacts[id].revision, now + duration);
      Result(s.(claims := s.claims[id := claim], nextToken := s.nextToken + 1), Claimed(claim))
  }

  function Renew(s: Store, now: nat, id: string, lease: Lease): Result {
    if id !in s.artifacts then Result(s, Refused(NotFound))
    else if !Accepts(s, id, now, lease.run, lease.token) then Result(s, Refused(ClaimInvalid))
    else
      var renewed := s.claims[id].(expires := now + lease.duration);
      Result(s.(claims := s.claims[id := renewed]), Claimed(renewed))
  }

  function Release(s: Store, id: string, run: string, token: nat): Result {
    if id !in s.claims || s.claims[id].run != run || s.claims[id].token != token then Result(s, Released(0))
    else Result(s.(claims := s.claims - {id}), Released(1))
  }

  ghost function ClaimsOf(s: Store, run: string): set<string> { set id | id in s.claims && s.claims[id].run == run }

  ghost function ReleaseForRun(s: Store, run: string): Result {
    Result(s.(claims := s.claims - ClaimsOf(s, run)), Released(|ClaimsOf(s, run)|))
  }

  // ----- maintenance --------------------------------------------------------

  predicate Expired(s: Store, now: nat, id: string) { id in s.claims && s.claims[id].expires <= now }

  predicate Orphaned(s: Store, now: nat, available: set<string>, id: string) {
    id in s.claims && !Expired(s, now, id) && s.claims[id].run !in available
  }

  predicate Misplaced(s: Store, now: nat, available: set<string>, id: string) {
    && id in s.claims && !Expired(s, now, id) && !Orphaned(s, now, available, id)
    && (id !in s.artifacts || !s.artifacts[id].status.Open? || s.artifacts[id].revision != s.claims[id].revision)
  }

  ghost function ExpiredClaims(s: Store, now: nat): set<string> { set id | id in s.claims && Expired(s, now, id) }

  ghost function OrphanedClaims(s: Store, now: nat, available: set<string>): set<string> {
    set id | id in s.claims && Orphaned(s, now, available, id)
  }

  ghost function MisplacedClaims(s: Store, now: nat, available: set<string>): set<string> {
    set id | id in s.claims && Misplaced(s, now, available, id)
  }

  ghost function Reclaimed(s: Store, now: nat, available: set<string>): set<string> {
    ExpiredClaims(s, now) + OrphanedClaims(s, now, available) + MisplacedClaims(s, now, available)
  }

  /** Closed artifacts last updated at or before the cutoff. */
  ghost function Purgeable(s: Store, cutoff: int): set<string> {
    set id | id in s.updated && id in s.artifacts && !s.artifacts[id].status.Open? && s.updated[id] <= cutoff
  }

  /** Oldest update first, ids in dictionary order. */
  predicate Sooner(s: Store, a: string, b: string)
    requires a in s.updated && b in s.updated
  {
    s.updated[a] < s.updated[b] || (s.updated[a] == s.updated[b] && Lexical.Below(Lexical.Codes(a), Lexical.Codes(b)))
  }

  /** The first `max` purgeable artifacts, oldest first. */
  ghost predicate IsPurgeList(s: Store, cutoff: int, max: pos, list: seq<string>) {
    && (forall i :: 0 <= i < |list| ==> list[i] in Purgeable(s, cutoff))
    && (forall i, j :: 0 <= i < j < |list| ==> Sooner(s, list[i], list[j]))
    && (forall i, id :: 0 <= i < |list| && id in Purgeable(s, cutoff) && id !in list ==> Sooner(s, list[i], id))
    && |list| <= max && (|list| < max ==> forall id :: id in Purgeable(s, cutoff) ==> id in list)
  }

  function Purged(s: Store, id: string): Store
    requires id in s.artifacts
  {
    s.(artifacts := s.artifacts - {id}, owners := s.owners - {s.artifacts[id].created.owner}, batches := s.batches - {id},
       claims := s.claims - {id}, updated := s.updated - {id},
       receipts := map k | k in s.receipts && k.0 != id :: s.receipts[k],
       digests := map k | k in s.digests && k.0 != id :: s.digests[k])
  }

  ghost function PurgeAll(s: Store, list: seq<string>): Store
    decreases |list|
  {
    if list == [] || list[0] !in s.artifacts then s else PurgeAll(Purged(s, list[0]), list[1..])
  }

  ghost function Reclaim(s: Store, now: nat, available: set<string>): Store {
    s.(claims := s.claims - Reclaimed(s, now, available))
  }

  ghost function Maintain(s: Store, now: nat, available: set<string>, purge: seq<string>): Result {
    Result(PurgeAll(Reclaim(s, now, available), purge),
           Report(|ExpiredClaims(s, now)|, |OrphanedClaims(s, now, available)|, |MisplacedClaims(s, now, available)|, |purge|))
  }

  // ----- the invariant ------------------------------------------------------

  function ItemsIn(batches: seq<Batch>): nat {
    if batches == [] then 0 else ItemsIn(batches[..|batches| - 1]) + |batches[|batches| - 1].content.items|
  }

  /** The batches of an artifact are numbered without gaps, each committed one revision after the one before. */
  ghost predicate Contiguous(id: string, batches: seq<Batch>) {
    && (forall i :: 0 <= i < |batches| ==>
          && batches[i].content.artifact == id && batches[i].content.sequence == i + 1
          && batches[i].committedRevision == i + 2)
    && (forall i, j :: 0 <= i < j < |batches| ==> batches[i].key != batches[j].key)
  }

  /** The record says what its batches say. */
  ghost predicate Agrees(a: Artifact, batches: seq<Batch>) {
    && a.nextSequence == |batches| + 1 && a.committedItems == ItemsIn(batches)
    && a.revision == |batches| + if a.status.Open? then 1 else 2
  }

  ghost predicate ArtifactSound(s: Store, id: string) {
    && id in s.artifacts && id in s.batches && id in s.updated && s.artifacts[id].id == id
    && Contiguous(id, s.batches[id]) && Agrees(s.artifacts[id], s.batches[id])
    && s.artifacts[id].created.owner in s.owners && s.owners[s.artifacts[id].created.owner] == id
  }

  ghost predicate ArtifactsSound(s: Store) {
    && s.batches.Keys == s.artifacts.Keys && s.updated.Keys == s.artifacts.Keys
    && (forall id {:trigger ArtifactSound(s, id)} :: id in s.artifacts ==> ArtifactSound(s, id))
    && (forall o :: o in s.owners ==> s.owners[o] in s.artifacts && s.artifacts[s.owners[o]].created.owner == o)
  }

  /** Every batch has its receipt and digest. */
  ghost predicate BatchReceipted(s: Store, id: string, i: nat)
    requires id in s.batches && i < |s.batches[id]|
  {
    var b := s.batches[id][i];
    && (id, b.key) in s.receipts && s.receipts[(id, b.key)] == ReceiptOf(b)
    && (id, b.key) in s.digests && s.digests[(id, b.key)] == b.content
  }

  /** Every receipt is that of one batch. */
  ghost predicate ReceiptBacked(s: Store, k: (string, string)) {
    k.0 in s.batches && exists i :: 0 <= i < |s.batches[k.0]| && s.batches[k.0][i].key == k.1
  }

  ghost predicate ReceiptsSound(s: Store) {
    && s.receipts.Keys == s.digests.Keys
    && (forall id, i {:trigger BatchReceipted(s, id, i)} :: id in s.batches && 0 <= i < |s.batches[id]| ==> BatchReceipted(s, id, i))
    && (forall k {:trigger ReceiptBacked(s, k)} :: k in s.receipts ==> ReceiptBacked(s, k))
  }

  /** Every stored claim is on an open artifact at its current revision. */
  ghost predicate ClaimSound(s: Store, id: string) {
    && id in s.claims && id in s.artifacts && s.claims[id].artifact == id && s.claims[id].token < s.nextToken
    && s.artifacts[id].status.Open? && s.claims[id].revision == s.artifacts[id].revision
  }

  ghost predicate ClaimsSound(s: Store) {
    forall id {:trigger ClaimSound(s, id)} :: id in s.claims ==> ClaimSound(s, id)
  }

  ghost predicate Sound(s: Store) { ArtifactsSound(s) && ReceiptsSound(s) && ClaimsSound(s) }

  // ----- every operation ----------------------------------------------------

  datatype Op =
    | DoCreate(id: string, command: CreateCommand)
    | DoAppend(append: AppendCommand)
    | DoFinalize(id: string, expected: pos, lease: Lease, resource: Option<string>, coverage: string)
    | DoAbort(id: string, expected: pos, lease: Lease)
    | DoAcquire(id: string, run: string, expected: pos, duration: pos)
    | DoRenew(id: string, lease: Lease)
    | DoRelease(id: string, run: string, token: nat)
    | DoReleaseForRun(run: string)
    | DoMaintain(available: set<string>, cutoff: Option<int>, max: pos, purge: seq<string>)

  /** The artifacts a maintenance sweep purges are determined by the state. */
  ghost predicate Admissible(s: Store, now: nat, op: Op) {
    op.DoMaintain? ==>
      if op.cutoff.None? then op.purge == [] else IsPurgeList(Reclaim(s, now, op.available), op.cutoff.value, op.max, op.purge)
  }

  ghost function Step(s: Store, now: nat, op: Op): Result {
    match op
    case DoCreate(id, command) => Create(s, now, id, command)
    case DoAppend(append) => Append(s, now, append)
    case DoFinalize(id, expected, lease, resource, coverage) =>
      Close(s, now, id, expected, lease, Some((resource, coverage)))
    case DoAbort(id, expected, lease) => Close(s, now, id, expected, lease, None)
    case DoAcquire(id, run, expected, duration) => Acquire(s, now, id, run, expected, duration)
    case DoRenew(id, lease) => Renew(s, now, id, lease)
    case DoRelease(id, run, token) => Release(s, id, run, token)
    case DoReleaseForRun(run) => ReleaseForRun(s, run)
    case DoMaintain(available, cutoff, max, purge) => Maintain(s, now, available, purge)
  }
}
