/** What each operation of the artifact store does, told artifact by artifact and claim by claim. */
module ArtifactEffects {
  import opened Prelude
  import opened Artifacts
  import opened ArtifactLaws

  /** The artifact can be written now by this Run, under this token, at this revision. */
  predicate MayWrite(s: Store, now: nat, id: string, expected: pos, run: string, token: nat) {
    && id in s.artifacts && s.artifacts[id].status.Open? && s.artifacts[id].revision == expected
    && id in s.claims && s.claims[id].expires > now && s.claims[id].run == run && s.claims[id].token == token
  }

  /** Why it cannot be written at this revision by whoever holds the claim. */
  predicate WriteRefused(s: Store, id: string, expected: pos, reply: Reply) {
    reply == Refused(
      if id !in s.artifacts then NotFound
      else if !s.artifacts[id].status.Open? then NotOpen
      else if s.artifacts[id].revision != expected then RevisionConflict
      else ClaimInvalid)
  }

  // ----- creation and appending ---------------------------------------------

  /** An artifact is created open and empty, unless its id or its owner is taken; an equal creation answers again. */
  lemma CreationCreates(s: Store, now: nat, id: string, command: CreateCommand)
    requires Sound(s)
    ensures var (r, blank) := (Create(s, now, id, command), Artifact(id, command, Open, 1, 1, 0, None, None));
      if id in s.artifacts
      then r == Result(s, if s.artifacts[id] == blank then Stored(blank) else Refused(IdConflict))
      else if command.owner in s.owners
      then
        && s.owners[command.owner] in s.artifacts
        && r == Result(s, if s.artifacts[s.owners[command.owner]].created == command
                          then Stored(s.artifacts[s.owners[command.owner]]) else Refused(OwnerConflict))
      else
        && r.reply == Stored(blank)
        && r.store == s.(artifacts := s.artifacts[id := blank], owners := s.owners[command.owner := id],
                         batches := s.batches[id := []], updated := s.updated[id := now])
  {
    hide ReceiptsSound, ClaimsSound, ArtifactSound;
  }

  /** The batch stands behind the others, is counted and receipted, and its claim is renewed at the new revision. */
  ghost predicate AppendedTo(s: Store, t: Store, now: nat, command: AppendCommand, receipt: Receipt) {
    var (id, key) := (command.content.artifact, command.key);
    && id in s.artifacts && id in s.batches && id in s.claims && id in t.batches
    && var (was, n, next) := (s.artifacts[id], |command.content.items|, s.artifacts[id].revision + 1);
       && receipt == Receipt(id, command.content.batch, command.content.sequence, next, command.content.sequence + 1, n)
       && t.batches[id] == s.batches[id] + [Batch(command.content, key, next)]
       && t == s.(
            artifacts := s.artifacts[id := was.(revision := next, nextSequence := was.nextSequence + 1,
                                                committedItems := was.committedItems + n)],
            batches := s.batches[id := t.batches[id]], receipts := s.receipts[(id, key) := receipt],
            digests := s.digests[(id, key) := command.content], updated := s.updated[id := now],
            claims := s.claims[id := s.claims[id].(revision := next, expires := now + command.lease.duration)])
  }

  /** An append with a new key lands exactly if its holder writes at the current revision and next in sequence. */
  lemma AppendAppends(s: Store, now: nat, command: AppendCommand)
    requires Sound(s) && (command.content.artifact, command.key) !in s.receipts
    ensures var (r, id) := (Append(s, now, command), command.content.artifact);
      var may := MayWrite(s, now, id, command.expectedRevision, command.lease.run, command.lease.token)
                 && s.artifacts[id].nextSequence == command.content.sequence;
      if may
      then r.reply.Receipted? && !r.reply.replayed && AppendedTo(s, r.store, now, command, r.reply.receipt)
      else
        && r.store == s
        && (if id in s.artifacts && s.artifacts[id].status.Open? && s.artifacts[id].revision == command.expectedRevision
               && s.artifacts[id].nextSequence != command.content.sequence
            then r.reply == Refused(SequenceConflict)
            else WriteRefused(s, id, command.expectedRevision, r.reply))
  {
    hide ReceiptsSound;
    var id := command.content.artifact;
    if id in s.artifacts { assert ArtifactSound(s, id); }
    if id in s.claims { assert ClaimSound(s, id); }
    hide ArtifactSound, ClaimSound, ArtifactsSound, ClaimsSound;
  }

  // ----- closing ------------------------------------------------------------

  /** The artifact is closed at the next revision, and its claim is given up. */
  ghost predicate ClosedAs(s: Store, t: Store, now: nat, id: string, after: Artifact) {
    && id in s.artifacts
    && t == s.(artifacts := s.artifacts[id := after], claims := t.claims, updated := s.updated[id := now])
    && t.claims.Keys == s.claims.Keys - {id} && (forall o :: o in t.claims ==> t.claims[o] == s.claims[o])
    && after == s.artifacts[id].(status := after.status, revision := s.artifacts[id].revision + 1,
                                 resource := after.resource, coverage := after.coverage)
  }

  /** A finalization closes with its resource and coverage, an abort without; both exactly from the holder of the pen. */
  lemma ClosingCloses(s: Store, now: nat, id: string, expected: pos, lease: Lease, resource: Option<string>, coverage: string)
    requires Sound(s)
    ensures var (r, may) := (Close(s, now, id, expected, lease, Some((resource, coverage))),
                             MayWrite(s, now, id, expected, lease.run, lease.token));
      if may
      then
        && r.reply.Stored? && ClosedAs(s, r.store, now, id, r.reply.artifact)
        && r.reply.artifact.status.Finalized? && r.reply.artifact.resource == resource && r.reply.artifact.coverage == Some(coverage)
      else r.store == s && WriteRefused(s, id, expected, r.reply)
    ensures var (r, may) := (Close(s, now, id, expected, lease, None), MayWrite(s, now, id, expected, lease.run, lease.token));
      if may
      then
        && r.reply.Stored? && ClosedAs(s, r.store, now, id, r.reply.artifact) && r.reply.artifact.status.Aborted?
        && r.reply.artifact.resource == s.artifacts[id].resource && r.reply.artifact.coverage == s.artifacts[id].coverage
      else r.store == s && WriteRefused(s, id, expected, r.reply)
  {
    hide ReceiptsSound, ArtifactsSound;
    if id in s.claims { assert ClaimSound(s, id); }
  }

  // ----- claims -------------------------------------------------------------

  /** The pen goes to who asks at the current revision while nobody holds it; its holder gets the same claim again. */
  lemma AcquisitionGives(s: Store, now: nat, id: string, run: string, expected: pos, duration: pos)
    requires Sound(s)
    ensures var r := Acquire(s, now, id, run, expected, duration);
      var held := id in s.claims && s.claims[id].expires > now;
      if id !in s.artifacts || !s.artifacts[id].status.Open? || s.artifacts[id].revision != expected
      then r.store == s && WriteRefused(s, id, expected, r.reply)
      else if held then r == Result(s, if s.claims[id].run == run then Claimed(s.claims[id]) else Refused(ClaimConflict))
      else
        && r.reply == Claimed(Claim(id, run, s.nextToken, expected, now + duration))
        && r.store == s.(claims := s.claims[id := r.reply.claim], nextToken := s.nextToken + 1)
  {
    hide ReceiptsSound, ArtifactsSound;
    if id in s.claims { assert ClaimSound(s, id); }
  }

  /** The holder moves the end of its claim, or gives it up; nobody else does. */
  lemma RenewalAndRelease(s: Store, now: nat, id: string, lease: Lease)
    requires Sound(s)
    ensures var r := Renew(s, now, id, lease);
      var holds := id in s.claims && s.claims[id].expires > now && s.claims[id].run == lease.run && s.claims[id].token == lease.token;
      if holds
      then
        && r.reply == Claimed(s.claims[id].(expires := now + lease.duration))
        && r.store == s.(claims := s.claims[id := r.reply.claim])
      else r == Result(s, Refused(if id !in s.artifacts then NotFound else ClaimInvalid))
    ensures var r := Release(s, id, lease.run, lease.token);
      if id in s.claims && s.claims[id].run == lease.run && s.claims[id].token == lease.token
      then
        && r.reply == Released(1) && r.store == s.(claims := r.store.claims)
        && r.store.claims.Keys == s.claims.Keys - {id} && forall o :: o in r.store.claims ==> r.store.claims[o] == s.claims[o]
      else r == Result(s, Released(0))
  {
    hide ReceiptsSound, ArtifactsSound;
    if id in s.claims { assert ClaimSound(s, id); }
  }

  /** Giving up all claims of a Run. */
  lemma RunReleases(s: Store, run: string)
    ensures var (r, gone) := (ReleaseForRun(s, run), set id | id in s.claims && s.claims[id].run == run);
      && r.reply == Released(|gone|) && r.store == s.(claims := r.store.claims)
      && r.store.claims.Keys == s.claims.Keys - gone && forall o :: o in r.store.claims ==> r.store.claims[o] == s.claims[o]
  {
  }

  // ----- maintenance --------------------------------------------------------

  /** Without these artifacts and everything that was kept for them, and otherwise the same. */
  ghost predicate Without(s: Store, t: Store, gone: set<string>) {
    && t.artifacts.Keys == s.artifacts.Keys - gone && t.batches.Keys == s.batches.Keys - gone
    && t.updated.Keys == s.updated.Keys - gone && t.claims.Keys == s.claims.Keys - gone
    && (forall id :: id in t.artifacts ==> t.artifacts[id] == s.artifacts[id])
    && (forall id :: id in t.batches ==> t.batches[id] == s.batches[id])
    && (forall id :: id in t.updated ==> t.updated[id] == s.updated[id])
    && (forall id :: id in t.claims ==> t.claims[id] == s.claims[id])
    && (forall o :: o in t.owners <==> o in s.owners && s.owners[o] !in gone)
    && (forall o :: o in t.owners ==> t.owners[o] == s.owners[o])
    && (forall k :: k in t.receipts <==> k in s.receipts && k.0 !in gone)
    && (forall k :: k in t.receipts ==> t.receipts[k] == s.receipts[k])
    && (forall k :: k in t.digests <==> k in s.digests && k.0 !in gone)
    && (forall k :: k in t.digests ==> t.digests[k] == s.digests[k])
    && t.nextToken == s.nextToken
  }

  lemma PurgingOne(s: Store, id: string)
    requires Sound(s) && id in s.artifacts
    ensures Without(s, Purged(s, id), {id})
  {
    hide ReceiptsSound, ClaimsSound;
    assert ArtifactSound(s, id);
    forall o | o in s.owners ensures s.owners[o] == id <==> o == s.artifacts[id].created.owner {
      assert s.owners[o] in s.artifacts;
    }
  }

  lemma WithoutMore(s: Store, t: Store, u: Store, gone: set<string>, more: set<string>)
    requires Without(s, t, gone) && Without(t, u, more)
    ensures Without(s, u, gone + more)
  {
  }

  lemma {:induction false} PurgingAll(s: Store, list: seq<string>)
    requires Sound(s) && Distinct(list) && forall id :: id in list ==> id in s.artifacts
    ensures Without(s, PurgeAll(s, list), Elements(list))
    decreases |list|
  {
    hide Sound, Without, Purged;
    if list == [] {
      NothingPurged(s);
    } else {
      var (id, rest) := (list[0], list[1..]);
      PurgedIsSound(s, id);
      PurgingOne(s, id);
      PurgedLeaves(s, id, rest);
      PurgingAll(Purged(s, id), rest);
      WithoutMore(s, Purged(s, id), PurgeAll(s, list), {id}, Elements(rest));
      assert list == [id] + rest;
      assert Elements(list) == {id} + Elements(rest);
    }
  }

  lemma PurgedLeaves(s: Store, id: string, rest: seq<string>)
    requires id in s.artifacts && Distinct([id] + rest) && forall o :: o in rest ==> o in s.artifacts
    ensures Distinct(rest) && forall o :: o in rest ==> o in Purged(s, id).artifacts
  {
    var list := [id] + rest;
    assert forall k :: 0 <= k < |rest| ==> rest[k] == list[k + 1] && list[0] != list[k + 1];
    forall o | o in rest ensures o != id {
      var k :| 0 <= k < |rest| && rest[k] == o;
    }
  }

  lemma NothingPurged(s: Store)
    ensures PurgeAll(s, []) == s && Without(s, s, Elements([]))
  {
  }

  /** Of a sound store exactly the expired and the orphaned claims are dropped. */
  lemma ReclaimingDrops(s: Store, now: nat, available: set<string>)
    requires Sound(s)
    ensures MisplacedClaims(s, now, available) == {}
    ensures Reclaim(s, now, available) == s.(claims := Reclaim(s, now, available).claims)
    ensures Reclaim(s, now, available).claims.Keys ==
      (set id | id in s.claims && s.claims[id].expires > now && s.claims[id].run in available)
    ensures forall id :: id in Reclaim(s, now, available).claims ==> Reclaim(s, now, available).claims[id] == s.claims[id]
    ensures ExpiredClaims(s, now) == (set id | id in s.claims && s.claims[id].expires <= now)
    ensures OrphanedClaims(s, now, available) == (set id | id in s.claims && s.claims[id].expires > now && s.claims[id].run !in available)
  {
    SoundClaimsArePlaced(s, now, available);
  }

  /** The claims that a sweep keeps: unexpired, of a Run that is still there. */
  ghost function Kept(s: Store, now: nat, available: set<string>): map<string, Claim> {
    map id | id in s.claims && s.claims[id].expires > now && s.claims[id].run in available :: s.claims[id]
  }

  lemma ReclaimingKeeps(s: Store, now: nat, available: set<string>)
    requires Sound(s)
    ensures Reclaim(s, now, available) == s.(claims := Kept(s, now, available))
  {
    hide Sound;
    ReclaimingDrops(s, now, available);
    assert Reclaim(s, now, available).claims == Kept(s, now, available);
  }

  /** No claim is on a closed artifact, so purging drops none. */
  lemma PurgingDropsNoClaim(s: Store, t: Store, purge: seq<string>)
    requires Sound(s) && Without(s, t, Elements(purge)) && forall id :: id in purge ==> id in s.artifacts && !s.artifacts[id].status.Open?
    ensures t.claims == s.claims
  {
    hide ReceiptsSound, ArtifactsSound;
    assert forall id :: id in purge && id in s.claims ==> ClaimSound(s, id);
    assert t.claims.Keys == s.claims.Keys;
  }

  /** What a sweep over a sound store drops and counts: expired claims, and of the others those whose Run is gone; and with
      each purged artifact everything that was kept for it, and nothing else. */
  lemma MaintenanceSweeps(s: Store, now: nat, available: set<string>, purge: seq<string>)
    requires Sound(s) && Distinct(purge) && forall id :: id in purge ==> id in s.artifacts && !s.artifacts[id].status.Open?
    ensures var r := Maintain(s, now, available, purge);
      && r.reply == Report(|set id | id in s.claims && s.claims[id].expires <= now|,
                           |set id | id in s.claims && s.claims[id].expires > now && s.claims[id].run !in available|,
                           0, |purge|)
      && Without(s.(claims := Kept(s, now, available)), r.store, Elements(purge)) && r.store.claims == Kept(s, now, available)
  {
    hide Sound, Without, Reclaim, PurgeAll, Kept, ExpiredClaims, OrphanedClaims, MisplacedClaims;
    ReclaimingDrops(s, now, available);
    ReclaimingKeeps(s, now, available);
    ReclaimIsSound(s, now, available);
    var u := Reclaim(s, now, available);
    PurgingAll(u, purge);
    PurgingDropsNoClaim(u, PurgeAll(u, purge), purge);
  }
}
