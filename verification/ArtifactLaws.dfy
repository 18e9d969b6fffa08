/** What the artifact store keeps, step by step and over whole runs. */
module ArtifactLaws {
  import opened Prelude
  import opened Artifacts
  import Lexical

  lemma EmptyIsSound()
    ensures Sound(EMPTY)
  {
  }

  // ----- frames -------------------------------------------------------------

  /** Nothing about one artifact changed. */
  ghost predicate SameAt(s: Store, t: Store, id: string) {
    && id in s.artifacts && id in t.artifacts && t.artifacts[id] == s.artifacts[id]
    && id in s.batches && id in t.batches && t.batches[id] == s.batches[id]
    && id in s.updated && id in t.updated
    && s.artifacts[id].created.owner in s.owners && s.artifacts[id].created.owner in t.owners
    && t.owners[s.artifacts[id].created.owner] == s.owners[s.artifacts[id].created.owner]
  }

  lemma SameStaysSound(s: Store, t: Store, id: string)
    requires ArtifactSound(s, id) && SameAt(s, t, id)
    ensures ArtifactSound(t, id)
  {
  }

  lemma ClaimsDropped(s: Store, t: Store)
    requires ClaimsSound(s) && t.artifacts == s.artifacts && t.nextToken >= s.nextToken
    requires forall id :: id in t.claims ==> id in s.claims && t.claims[id] == s.claims[id]
    ensures ClaimsSound(t)
  {
    forall id | id in t.claims ensures ClaimSound(t, id) { assert ClaimSound(s, id); }
  }

  lemma OnlyClaimsChange(s: Store, t: Store)
    requires t == s.(claims := t.claims, nextToken := t.nextToken)
    ensures ArtifactsSound(s) ==> ArtifactsSound(t)
    ensures ReceiptsSound(s) ==> ReceiptsSound(t)
  {
    if ArtifactsSound(s) {
      forall id | id in t.artifacts ensures ArtifactSound(t, id) { assert ArtifactSound(s, id); }
    }
    if ReceiptsSound(s) {
      forall id, i | id in t.batches && 0 <= i < |t.batches[id]| ensures BatchReceipted(t, id, i) { assert BatchReceipted(s, id, i); }
      forall k | k in t.receipts ensures ReceiptBacked(t, k) { assert ReceiptBacked(s, k); }
    }
  }

  // ----- creating -----------------------------------------------------------

  lemma CreateIsSound(s: Store, now: nat, id: string, command: CreateCommand)
    requires Sound(s)
    ensures Sound(Create(s, now, id, command).store)
  {
    var t := Create(s, now, id, command).store;
    if t != s {
      CreatedArtifacts(s, now, id, command);
      CreatedReceipts(s, now, id, command);
      forall c | c in t.claims ensures ClaimSound(t, c) { assert ClaimSound(s, c); }
    }
  }

  lemma CreatedArtifacts(s: Store, now: nat, id: string, command: CreateCommand)
    requires Sound(s) && Create(s, now, id, command).store != s
    ensures ArtifactsSound(Create(s, now, id, command).store)
  {
    var t := Create(s, now, id, command).store;
    assert id !in s.artifacts && command.owner !in s.owners;
    forall x | x in t.artifacts ensures ArtifactSound(t, x) {
      if x != id {
        assert ArtifactSound(s, x);
        assert SameAt(s, t, x);
        SameStaysSound(s, t, x);
      }
    }
  }

  lemma CreatedReceipts(s: Store, now: nat, id: string, command: CreateCommand)
    requires Sound(s) && Create(s, now, id, command).store != s
    ensures ReceiptsSound(Create(s, now, id, command).store)
  {
    var t := Create(s, now, id, command).store;
    forall x, i | x in t.batches && 0 <= i < |t.batches[x]| ensures BatchReceipted(t, x, i) { assert BatchReceipted(s, x, i); }
    forall k | k in t.receipts ensures ReceiptBacked(t, k) { assert ReceiptBacked(s, k); }
  }

  // ----- appending ----------------------------------------------------------

  /** An append that goes through. */
  ghost predicate Lands(s: Store, now: nat, command: AppendCommand) {
    && Replay(s, command).None? && WriteFault(s, command.content.artifact, command.expectedRevision).None?
    && s.artifacts[command.content.artifact].nextSequence == command.content.sequence
    && Accepts(s, command.content.artifact, now, command.lease.run, command.lease.token)
  }

  lemma KeyIsNew(s: Store, command: AppendCommand)
    requires Sound(s) && Replay(s, command).None? && command.content.artifact in s.batches
    ensures forall i :: 0 <= i < |s.batches[command.content.artifact]| ==> s.batches[command.content.artifact][i].key != command.key
  {
    var id := command.content.artifact;
    forall i | 0 <= i < |s.batches[id]| ensures s.batches[id][i].key != command.key { assert BatchReceipted(s, id, i); }
  }

  lemma NextBatchFits(id: string, a: Artifact, batches: seq<Batch>, b: Batch)
    requires Contiguous(id, batches) && Agrees(a, batches) && a.status.Open?
    requires b.content.artifact == id && b.content.sequence == a.nextSequence && b.committedRevision == a.revision + 1
    requires forall i :: 0 <= i < |batches| ==> batches[i].key != b.key
    ensures Contiguous(id, batches + [b])
    ensures Agrees(a.(revision := b.committedRevision, nextSequence := b.content.sequence + 1,
                      committedItems := a.committedItems + |b.content.items|), batches + [b])
  {
    assert (batches + [b])[..|batches|] == batches;
  }

  /** What an append that goes through does to the artifacts. */
  lemma AppendChange(s: Store, now: nat, command: AppendCommand)
    requires Lands(s, now, command) && command.content.artifact in s.batches
    ensures var (t, id) := (Append(s, now, command).store, command.content.artifact);
      var a := s.artifacts[id];
      var b := Batch(command.content, command.key, a.revision + 1);
      && t.artifacts == s.artifacts[id := a.(revision := b.committedRevision, nextSequence := b.content.sequence + 1,
                                             committedItems := a.committedItems + |b.content.items|)]
      && t.batches == s.batches[id := s.batches[id] + [b]] && t.updated == s.updated[id := now] && t.owners == s.owners
      && a.status.Open? && b.content.sequence == a.nextSequence
  {
  }

  lemma AppendedArtifacts(s: Store, now: nat, command: AppendCommand)
    requires Sound(s) && Lands(s, now, command)
    ensures ArtifactsSound(Append(s, now, command).store)
  {
    hide Contiguous, Agrees, Append, Lands, ReceiptsSound, ClaimsSound;
    var t := Append(s, now, command).store;
    var id := command.content.artifact;
    LandsOnArtifact(s, now, command);
    assert ArtifactSound(s, id);
    AppendChange(s, now, command);
    NextBatchFits(id, s.artifacts[id], s.batches[id], Batch(command.content, command.key, s.artifacts[id].revision + 1));
    forall x | x in t.artifacts ensures ArtifactSound(t, x) {
      assert ArtifactSound(s, x);
      if x != id { SameStaysSound(s, t, x); }
    }
  }

  lemma LandsOnArtifact(s: Store, now: nat, command: AppendCommand)
    requires Sound(s) && Lands(s, now, command)
    ensures command.content.artifact in s.artifacts && command.content.artifact in s.batches
    ensures forall i :: 0 <= i < |s.batches[command.content.artifact]| ==> s.batches[command.content.artifact][i].key != command.key
  {
    assert ArtifactSound(s, command.content.artifact);
    KeyIsNew(s, command);
  }

  lemma AppendedReceipts(s: Store, now: nat, command: AppendCommand)
    requires Sound(s) && Lands(s, now, command)
    ensures ReceiptsSound(Append(s, now, command).store)
  {
    var t := Append(s, now, command).store;
    var id := command.content.artifact;
    KeyIsNew(s, command);
    assert t.batches[id] == s.batches[id] + [Batch(command.content, command.key, s.artifacts[id].revision + 1)];
    hide ArtifactsSound, ClaimsSound, Accepts;
    forall x, i | x in t.batches && 0 <= i < |t.batches[x]| ensures BatchReceipted(t, x, i) {
      if x != id || i < |s.batches[id]| { assert BatchReceipted(s, x, i); }
    }
    forall k | k in t.receipts ensures ReceiptBacked(t, k) {
      if k == (id, command.key) { assert t.batches[id][|s.batches[id]|].key == k.1; }
      else {
        assert ReceiptBacked(s, k);
        var i :| 0 <= i < |s.batches[k.0]| && s.batches[k.0][i].key == k.1;
        assert t.batches[k.0][i].key == k.1;
      }
    }
  }

  lemma AppendIsSound(s: Store, now: nat, command: AppendCommand)
    requires Sound(s)
    ensures Sound(Append(s, now, command).store)
  {
    if Lands(s, now, command) {
      AppendedArtifacts(s, now, command);
      AppendedReceipts(s, now, command);
      var t := Append(s, now, command).store;
      forall x | x in t.claims ensures ClaimSound(t, x) { assert ClaimSound(s, x); }
    }
  }

  // ----- closing ------------------------------------------------------------

  lemma ClosedAgrees(a: Artifact, b: Artifact, batches: seq<Batch>)
    requires Agrees(a, batches) && a.status.Open? && !b.status.Open?
    requires b.revision == a.revision + 1 && b.nextSequence == a.nextSequence && b.committedItems == a.committedItems
    ensures Agrees(b, batches)
  {
  }

  /** An artifact that can be closed, with the closed one. */
  lemma ClosingChange(s: Store, now: nat, id: string, expected: pos, lease: Lease, outcome: Option<(Option<string>, string)>)
    requires Close(s, now, id, expected, lease, outcome).store != s
    ensures id in s.artifacts && s.artifacts[id].status.Open?
    ensures var t := Close(s, now, id, expected, lease, outcome).store;
      && id in t.artifacts && t == s.(artifacts := s.artifacts[id := t.artifacts[id]], claims := s.claims - {id}, updated := t.updated)
      && t.updated == s.updated[id := now]
      && !t.artifacts[id].status.Open? && t.artifacts[id].id == s.artifacts[id].id
      && t.artifacts[id].created == s.artifacts[id].created && t.artifacts[id].revision == s.artifacts[id].revision + 1
      && t.artifacts[id].nextSequence == s.artifacts[id].nextSequence
      && t.artifacts[id].committedItems == s.artifacts[id].committedItems
  {
  }

  lemma CloseIsSound(s: Store, now: nat, id: string, expected: pos, lease: Lease, outcome: Option<(Option<string>, string)>)
    requires Sound(s)
    ensures Sound(Close(s, now, id, expected, lease, outcome).store)
  {
    hide Contiguous, ReceiptsSound, Close, Agrees;
    var t := Close(s, now, id, expected, lease, outcome).store;
    if t != s {
      ClosingChange(s, now, id, expected, lease, outcome);
      assert ArtifactSound(s, id);
      ClosedAgrees(s.artifacts[id], t.artifacts[id], s.batches[id]);
      forall x | x in t.artifacts ensures ArtifactSound(t, x) {
        assert ArtifactSound(s, x);
        if x != id { SameStaysSound(s, t, x); }
      }
      forall x | x in t.claims ensures ClaimSound(t, x) { assert ClaimSound(s, x); }
      SameReceipts(s, t);
    }
  }

  lemma SameReceipts(s: Store, t: Store)
    requires ReceiptsSound(s) && t.batches == s.batches && t.receipts == s.receipts && t.digests == s.digests
    ensures ReceiptsSound(t)
  {
    forall id, i | id in t.batches && 0 <= i < |t.batches[id]| ensures BatchReceipted(t, id, i) { assert BatchReceipted(s, id, i); }
    forall k | k in t.receipts ensures ReceiptBacked(t, k) { assert ReceiptBacked(s, k); }
  }

  // ----- claims -------------------------------------------------------------

  lemma ClaimStepIsSound(s: Store, now: nat, op: Op)
    requires Sound(s) && (op.DoAcquire? || op.DoRenew? || op.DoRelease? || op.DoReleaseForRun?)
    ensures Sound(Step(s, now, op).store)
  {
    var t := Step(s, now, op).store;
    OnlyClaimsChange(s, t);
    forall x | x in t.claims ensures ClaimSound(t, x) {
      if x in s.claims { assert ClaimSound(s, x); }
    }
    hide ArtifactsSound, ReceiptsSound;
  }

  // ----- purging ------------------------------------------------------------

  lemma PurgedArtifacts(s: Store, id: string)
    requires ArtifactsSound(s) && id in s.artifacts
    ensures ArtifactsSound(Purged(s, id))
  {
    var t := Purged(s, id);
    assert ArtifactSound(s, id);
    hide Contiguous, Agrees;
    forall x | x in t.artifacts ensures ArtifactSound(t, x) {
      assert ArtifactSound(s, x);
      SameStaysSound(s, t, x);
    }
    forall o | o in t.owners ensures t.owners[o] in t.artifacts && t.artifacts[t.owners[o]].created.owner == o {
      assert s.owners[o] in s.artifacts && s.artifacts[s.owners[o]].created.owner == o;
    }
  }

  lemma PurgedReceipts(s: Store, id: string)
    requires ReceiptsSound(s) && id in s.artifacts
    ensures ReceiptsSound(Purged(s, id))
  {
    var t := Purged(s, id);
    forall x, i | x in t.batches && 0 <= i < |t.batches[x]| ensures BatchReceipted(t, x, i) { assert BatchReceipted(s, x, i); }
    forall k | k in t.receipts ensures ReceiptBacked(t, k) { assert ReceiptBacked(s, k); }
  }

  lemma PurgedIsSound(s: Store, id: string)
    requires Sound(s) && id in s.artifacts
    ensures Sound(Purged(s, id))
  {
    PurgedArtifacts(s, id);
    PurgedReceipts(s, id);
    var t := Purged(s, id);
    forall x | x in t.claims ensures ClaimSound(t, x) { assert ClaimSound(s, x); }
  }

  lemma {:induction false} PurgeAllIsSound(s: Store, list: seq<string>)
    requires Sound(s)
    ensures Sound(PurgeAll(s, list))
    decreases |list|
  {
    hide Sound, Purged;
    if list != [] && list[0] in s.artifacts {
      PurgedIsSound(s, list[0]);
      PurgeAllIsSound(Purged(s, list[0]), list[1..]);
    }
  }

  lemma ReclaimIsSound(s: Store, now: nat, available: set<string>)
    requires Sound(s)
    ensures Sound(Reclaim(s, now, available))
  {
    OnlyClaimsChange(s, Reclaim(s, now, available));
    ClaimsDropped(s, Reclaim(s, now, available));
    hide ArtifactsSound, ReceiptsSound, ClaimsSound;
  }

  lemma StepIsSound(s: Store, now: nat, op: Op)
    requires Sound(s)
    ensures Sound(Step(s, now, op).store)
  {
    hide Sound, Create, Append, Close, Acquire, Renew, Release, ReleaseForRun, Reclaim, PurgeAll;
    match op
    case DoCreate(id, command) => CreateIsSound(s, now, id, command);
    case DoAppend(append) => AppendIsSound(s, now, append);
    case DoFinalize(id, expected, lease, resource, coverage) => CloseIsSound(s, now, id, expected, lease, Some((resource, coverage)));
    case DoAbort(id, expected, lease) => CloseIsSound(s, now, id, expected, lease, None);
    case DoMaintain(available, cutoff, max, purge) =>
      ReclaimIsSound(s, now, available);
      PurgeAllIsSound(Reclaim(s, now, available), purge);
    case _ => ClaimStepIsSound(s, now, op);
  }

  // ----- runs ---------------------------------------------------------------

  /** A step and the clock reading it sees. */
  datatype Event = Event(now: nat, op: Op)

  ghost function Next(s: Store, e: Event): Store { Step(s, e.now, e.op).store }

  ghost function Run(s: Store, events: seq<Event>): Store
    decreases |events|
  {
    if events == [] then s else Run(Next(s, events[0]), events[1..])
  }

  lemma {:induction false} RunKeepsSound(s: Store, events: seq<Event>)
    requires Sound(s)
    ensures Sound(Run(s, events))
    decreases |events|
  {
    hide Sound, Step;
    if events != [] {
      StepIsSound(s, events[0].now, events[0].op);
      RunKeepsSound(Next(s, events[0]), events[1..]);
    }
  }

  /** In every reachable store the record of each artifact says what its batches say. */
  lemma ReachableStoresAgree(events: seq<Event>, id: string)
    requires id in Run(EMPTY, events).artifacts
    ensures var s := Run(EMPTY, events);
      && id in s.batches
      && s.artifacts[id].nextSequence == |s.batches[id]| + 1 && s.artifacts[id].committedItems == ItemsIn(s.batches[id])
      && (forall i :: 0 <= i < |s.batches[id]| ==> s.batches[id][i].content.sequence == i + 1)
  {
    EmptyIsSound();
    RunKeepsSound(EMPTY, events);
    assert ArtifactSound(Run(EMPTY, events), id);
  }

  /** There is a receipt under a key exactly when a batch carries the key; then it is the only one, with that receipt. */
  ghost predicate OneToOne(s: Store, id: string, key: string) {
    if id !in s.batches || (forall i :: 0 <= i < |s.batches[id]| ==> s.batches[id][i].key != key) then (id, key) !in s.receipts
    else
      exists i :: 0 <= i < |s.batches[id]| && s.batches[id][i].key == key
        && (id, key) in s.receipts && s.receipts[(id, key)] == ReceiptOf(s.batches[id][i])
        && forall j :: 0 <= j < |s.batches[id]| && s.batches[id][j].key == key ==> j == i
  }

  lemma SoundIsOneToOne(s: Store, id: string, key: string)
    requires Sound(s)
    ensures OneToOne(s, id, key)
  {
    if (id, key) in s.receipts { assert ReceiptBacked(s, (id, key)); }
    if id in s.batches {
      assert ArtifactSound(s, id);
      if i :| 0 <= i < |s.batches[id]| && s.batches[id][i].key == key { assert BatchReceipted(s, id, i); }
    }
  }

  /** In every reachable store receipts and batches correspond one to one. */
  lemma ReceiptsMatchBatches(events: seq<Event>, id: string, key: string)
    ensures OneToOne(Run(EMPTY, events), id, key)
  {
    EmptyIsSound();
    RunKeepsSound(EMPTY, events);
    SoundIsOneToOne(Run(EMPTY, events), id, key);
  }

  lemma SoundClaimsArePlaced(s: Store, now: nat, available: set<string>)
    requires Sound(s)
    ensures MisplacedClaims(s, now, available) == {}
  {
    forall id | id in s.claims ensures !Misplaced(s, now, available, id) { assert ClaimSound(s, id); }
  }

  /** No claim of a reachable store is ever released for an invalid target. */
  lemma MaintenanceFindsNoMisplacedClaim(events: seq<Event>, now: nat, available: set<string>, purge: seq<string>)
    ensures MisplacedClaims(Run(EMPTY, events), now, available) == {}
    ensures Maintain(Run(EMPTY, events), now, available, purge).reply.invalid == 0
  {
    EmptyIsSound();
    RunKeepsSound(EMPTY, events);
    SoundClaimsArePlaced(Run(EMPTY, events), now, available);
  }

  // ----- claim tokens -------------------------------------------------------

  /** Where a stored claim comes from: it was there, it is new, or its holder was accepted. */
  ghost predicate ClaimFrom(s: Store, t: Store, now: nat, id: string) {
    id in t.claims &&
    ((id in s.claims && t.claims[id] == s.claims[id])
     || t.claims[id].token == s.nextToken
     || (id in s.claims && t.claims[id].run == s.claims[id].run && t.claims[id].token == s.claims[id].token
         && Accepts(s, id, now, s.claims[id].run, s.claims[id].token)))
  }

  ghost predicate ClaimsFrom(s: Store, t: Store, now: nat) {
    t.nextToken >= s.nextToken && forall id {:trigger ClaimFrom(s, t, now, id)} :: id in t.claims ==> ClaimFrom(s, t, now, id)
  }

  lemma {:induction false} PurgeOnlyDrops(s: Store, list: seq<string>)
    ensures var t := PurgeAll(s, list);
      t.nextToken == s.nextToken && forall id :: id in t.claims ==> id in s.claims && t.claims[id] == s.claims[id]
    decreases |list|
  {
    if list != [] && list[0] in s.artifacts { PurgeOnlyDrops(Purged(s, list[0]), list[1..]); }
  }

  lemma StepClaims(s: Store, now: nat, op: Op)
    ensures ClaimsFrom(s, Step(s, now, op).store, now)
  {
    if op.DoMaintain? { PurgeOnlyDrops(Reclaim(s, now, op.available), op.purge); }
    else if op.DoAppend? { AppendClaims(s, now, op.append); }
    hide PurgeAll, Accepts, Append, WriteFault;
  }

  lemma AppendClaims(s: Store, now: nat, command: AppendCommand)
    ensures ClaimsFrom(s, Append(s, now, command).store, now)
  {
  }

  lemma StillRejected(s: Store, t: Store, id: string, now: nat, later: nat, end: nat, run: string, token: nat)
    requires Sound(s) && ClaimsFrom(s, t, later) && now <= later <= end
    requires token < s.nextToken && !Accepts(s, id, now, run, token)
    ensures token < t.nextToken && !Accepts(t, id, end, run, token)
  {
    assert id in t.claims ==> ClaimFrom(s, t, later, id);
    assert id in s.claims ==> ClaimSound(s, id);
  }

  ghost predicate Timely(start: nat, events: seq<Event>) {
    && (forall i :: 0 <= i < |events| ==> start <= events[i].now)
    && (forall i, j :: 0 <= i < j < |events| ==> events[i].now <= events[j].now)
  }

  /** Under a clock that does not go back, a claim token that is once rejected is rejected for ever. */
  lemma {:induction false} RejectedClaimStaysRejected(
      s: Store, events: seq<Event>, id: string, now: nat, end: nat, run: string, token: nat)
    requires Sound(s) && Timely(now, events) && now <= end && forall i :: 0 <= i < |events| ==> events[i].now <= end
    requires token < s.nextToken && !Accepts(s, id, now, run, token)
    ensures !Accepts(Run(s, events), id, end, run, token)
    decreases |events|
  {
    hide Sound, Step, Accepts;
    if events == [] { RejectedLater(s, id, now, end, run, token); }
    else {
      var t := Next(s, events[0]);
      StepIsSound(s, events[0].now, events[0].op);
      StepClaims(s, events[0].now, events[0].op);
      StillRejected(s, t, id, now, events[0].now, events[0].now, run, token);
      RejectedClaimStaysRejected(t, events[1..], id, events[0].now, end, run, token);
    }
  }

  lemma RejectedLater(s: Store, id: string, now: nat, end: nat, run: string, token: nat)
    requires now <= end && !Accepts(s, id, now, run, token)
    ensures !Accepts(s, id, end, run, token)
  {
  }

  // ----- versions -----------------------------------------------------------

  /** An artifact that is still there has only grown, and its revision tells whether it changed. */
  ghost predicate Versioned(s: Store, t: Store, id: string) {
    id in s.artifacts && id in s.batches && id in t.artifacts && id in t.batches ==>
      && s.batches[id] <= t.batches[id] && s.artifacts[id].revision <= t.artifacts[id].revision
      && (s.artifacts[id].revision == t.artifacts[id].revision ==>
            t.artifacts[id] == s.artifacts[id] && t.batches[id] == s.batches[id])
      && (!s.artifacts[id].status.Open? ==> t.artifacts[id] == s.artifacts[id] && t.batches[id] == s.batches[id])
  }

  lemma {:induction false} PurgeOnlyRemoves(s: Store, list: seq<string>)
    ensures var t := PurgeAll(s, list);
      && (forall id :: id in t.artifacts ==> id in s.artifacts && t.artifacts[id] == s.artifacts[id])
      && (forall id :: id in t.batches ==> id in s.batches && t.batches[id] == s.batches[id])
      && (forall id :: id in s.artifacts && id !in list ==> id in t.artifacts)
    decreases |list|
  {
    if list != [] && list[0] in s.artifacts { PurgeOnlyRemoves(Purged(s, list[0]), list[1..]); }
  }

  /** In one step content only grows, equal revisions mean equal content, and closed artifacts do not change. */
  lemma StepIsVersioned(s: Store, now: nat, op: Op, id: string)
    requires Sound(s)
    ensures Versioned(s, Step(s, now, op).store, id)
  {
    if op.DoMaintain? { PurgeOnlyRemoves(Reclaim(s, now, op.available), op.purge); }
    else if op.DoAppend? { AppendIsVersioned(s, now, op.append, id); }
    hide PurgeAll, Append, Sound, Accepts;
  }

  lemma AppendIsVersioned(s: Store, now: nat, command: AppendCommand, id: string)
    ensures Versioned(s, Append(s, now, command).store, id)
  {
  }

  /** No maintenance sweep purges an open artifact. */
  lemma OpenArtifactsSurvive(s: Store, now: nat, op: Op, id: string)
    requires Admissible(s, now, op) && id in s.artifacts && s.artifacts[id].status.Open?
    ensures id in Step(s, now, op).store.artifacts
  {
    if op.DoMaintain? {
      PurgeOnlyRemoves(Reclaim(s, now, op.available), op.purge);
      assert id !in Purgeable(Reclaim(s, now, op.available), if op.cutoff.Some? then op.cutoff.value else 0);
      assert id !in op.purge;
    }
    hide PurgeAll, Append, Accepts;
  }

  // ----- appending twice ----------------------------------------------------

  /** Sending an append again returns its receipt and changes nothing; other content under its key is refused. */
  lemma AppendReplays(s: Store, now: nat, command: AppendCommand, again: AppendCommand, later: nat)
    requires Lands(s, now, command) && again.key == command.key && again.content.artifact == command.content.artifact
    ensures var r := Append(s, now, command);
      Append(r.store, later, again)
        == Result(r.store, if again.content == command.content then Receipted(r.reply.receipt, true)
                           else Refused(IdempotencyConflict))
  {
  }

  /** Of two appends that expect the same revision at most one lands. */
  lemma OneAppendPerRevision(s: Store, now: nat, first: AppendCommand, second: AppendCommand, later: nat)
    requires Lands(s, now, first) && second.content.artifact == first.content.artifact
    requires second.expectedRevision == first.expectedRevision
    ensures !Lands(Append(s, now, first).store, later, second)
  {
  }

  // ----- purging ------------------------------------------------------------

  lemma SoonerIsStrict(s: Store, a: string, b: string)
    requires a in s.updated && b in s.updated && Sooner(s, a, b)
    ensures !Sooner(s, b, a) && a != b
  {
    if Lexical.Below(Lexical.Codes(a), Lexical.Codes(b)) { Lexical.Asymmetric(Lexical.Codes(a), Lexical.Codes(b)); }
    if a == b { Lexical.Irreflexive(Lexical.Codes(a)); }
  }

  lemma PurgeListEntries(s: Store, cutoff: int, max: pos, list: seq<string>)
    requires IsPurgeList(s, cutoff, max, list)
    ensures Distinct(list) && forall i :: 0 <= i < |list| ==> list[i] in s.artifacts
  {
    forall i, j | 0 <= i < j < |list| ensures list[i] != list[j] { SoonerIsStrict(s, list[i], list[j]); }
    assert forall i :: 0 <= i < |list| ==> list[i] in Purgeable(s, cutoff);
  }

  lemma {:induction false} PurgeListsShareEntries(s: Store, cutoff: int, max: pos, a: seq<string>, b: seq<string>, n: nat)
    requires IsPurgeList(s, cutoff, max, a) && IsPurgeList(s, cutoff, max, b) && n <= |a| && n <= |b|
    ensures a[..n] == b[..n]
  {
    if n > 0 {
      PurgeListsShareEntries(s, cutoff, max, a, b, n - 1);
      var x, y := a[n - 1], b[n - 1];
      if x != y {
        NotYetListed(s, cutoff, max, a, b, n - 1);
        NotYetListed(s, cutoff, max, b, a, n - 1);
        SoonerIsStrict(s, x, y);
      }
    }
  }

  lemma NotLonger(s: Store, cutoff: int, max: pos, a: seq<string>, b: seq<string>)
    requires IsPurgeList(s, cutoff, max, a) && IsPurgeList(s, cutoff, max, b)
    ensures |b| <= |a|
  {
    if |a| < |b| {
      PurgeListsShareEntries(s, cutoff, max, a, b, |a|);
      assert b[|a|] in Purgeable(s, cutoff);
      var j :| 0 <= j < |a| && a[j] == b[|a|];
      assert b[j] == b[..|a|][j];
      SoonerIsStrict(s, b[j], b[|a|]);
    }
  }

  /** The artifacts a sweep purges, and their order, are determined by the store. */
  lemma PurgeListIsUnique(s: Store, cutoff: int, max: pos, a: seq<string>, b: seq<string>)
    requires IsPurgeList(s, cutoff, max, a) && IsPurgeList(s, cutoff, max, b)
    ensures a == b
  {
    NotLonger(s, cutoff, max, a, b);
    NotLonger(s, cutoff, max, b, a);
    PurgeListsShareEntries(s, cutoff, max, a, b, |a|);
  }

  /** The next entry of one list comes before the next entry of the other. */
  lemma NotYetListed(s: Store, cutoff: int, max: pos, a: seq<string>, b: seq<string>, n: nat)
    requires IsPurgeList(s, cutoff, max, a) && IsPurgeList(s, cutoff, max, b) && n < |a| && n < |b|
    requires a[..n] == b[..n] && a[n] != b[n]
    ensures a[n] in s.updated && b[n] in s.updated && Sooner(s, a[n], b[n])
  {
    assert b[n] in Purgeable(s, cutoff) && a[n] in Purgeable(s, cutoff);
    if b[n] in a {
      var j :| 0 <= j < |a| && a[j] == b[n];
      if j < n {
        assert b[j] == a[..n][j] == b[n];
        SoonerIsStrict(s, b[j], b[n]);
      }
    }
  }
}
