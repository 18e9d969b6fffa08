/** The artifact store as the adapter keeps it: eight dictionaries updated in place by every operation. */
module ArtifactStore {
  import opened Prelude
  import opened Artifacts
  import ArtifactLaws
  import Lexical

  datatype Fate = Lapsed | Unowned | Stray | Live

  /** What a maintenance sweep makes of a claim. */
  function Judge(now: nat, available: set<string>, claim: Claim, artifacts: map<string, Artifact>, id: string): Fate {
    if claim.expires <= now then Lapsed
    else if claim.run !in available then Unowned
    else if id !in artifacts || !artifacts[id].status.Open? || artifacts[id].revision != claim.revision then Stray
    else Live
  }

  class InMemoryArtifactStore {
    var artifacts: map<string, Artifact>
    var owners: map<Owner, string>
    var batches: map<string, seq<Batch>>
    var receipts: map<(string, string), Receipt>
    var digests: map<(string, string), Content>
    var claims: map<string, Claim>
    var updated: map<string, nat>
    var nextToken: nat

    ghost function View(): Store
      reads this
    {
      Store(artifacts, owners, batches, receipts, digests, claims, updated, nextToken)
    }

    ghost predicate Valid()
      reads this
    {
      Sound(View())
    }

    constructor ()
      ensures View() == EMPTY && Valid()
    {
      artifacts, owners, batches, receipts := map[], map[], map[], map[];
      digests, claims, updated, nextToken := map[], map[], map[], 0;
      new;
      ArtifactLaws.EmptyIsSound();
    }

    /** Whatever a step leaves is valid again. */
    lemma Keeps(now: nat, op: Op)
      requires Valid()
      ensures Sound(Step(View(), now, op).store)
    {
      ArtifactLaws.StepIsSound(View(), now, op);
    }

    lemma KeysAgree()
      requires Valid()
      ensures batches.Keys == artifacts.Keys && updated.Keys == artifacts.Keys && digests.Keys == receipts.Keys
      ensures forall o :: o in owners ==> owners[o] in artifacts
      ensures claims.Keys <= artifacts.Keys
    {
      forall id | id in claims ensures id in artifacts { assert ClaimSound(View(), id); }
    }

    // ----- writing ----------------------------------------------------------

    method Create(now: nat, id: string, command: CreateCommand) returns (r: Reply)
      requires Valid()
      modifies this
      ensures Valid() && Result(View(), r) == Artifacts.Create(old(View()), now, id, command)
    {
      hide Sound;
      Keeps(now, DoCreate(id, command));
      KeysAgree();
      var candidate := NewArtifact(id, command);
      if id in artifacts {
        return if artifacts[id] == candidate then Stored(candidate) else Refused(IdConflict);
      }
      if command.owner in owners {
        var owned := artifacts[owners[command.owner]];
        return if owned.created == command then Stored(owned) else Refused(OwnerConflict);
      }
      artifacts := artifacts[id := candidate];
      owners := owners[command.owner := id];
      batches := batches[id := []];
      updated := updated[id := now];
      return Stored(candidate);
    }

    function RequireWritable(id: string, expected: pos): (fault: Option<Fault>)
      reads this
      ensures fault == WriteFault(View(), id, expected)
    {
      if id !in artifacts then Some(NotFound)
      else if !artifacts[id].status.Open? then Some(NotOpen)
      else if artifacts[id].revision != expected then Some(RevisionConflict)
      else None
    }

    function ActiveClaim(id: string, now: nat): (claim: Option<Claim>)
      reads this
      ensures claim == if Active(View(), id, now) then Some(claims[id]) else None
    {
      if id in claims && claims[id].expires > now then Some(claims[id]) else None
    }

    function HoldsClaim(id: string, now: nat, run: string, token: nat): (b: bool)
      requires id in artifacts
      reads this
      ensures b == Accepts(View(), id, now, run, token)
    {
      var claim := ActiveClaim(id, now);
      claim.Some? && claim.value.run == run && claim.value.token == token && claim.value.revision == artifacts[id].revision
    }

    method Append(now: nat, command: AppendCommand) returns (r: Reply)
      requires Valid()
      modifies this
      ensures Valid() && Result(View(), r) == Artifacts.Append(old(View()), now, command)
    {
      hide Sound, Accepts, WriteFault;
      Keeps(now, DoAppend(command));
      KeysAgree();
      var id := command.content.artifact;
      var at := (id, command.key);
      if at in receipts {
        return if digests[at] != command.content then Refused(IdempotencyConflict) else Receipted(receipts[at], true);
      }
      var fault := RequireWritable(id, command.expectedRevision);
      if fault.Some? { return Refused(fault.value); }
      assert id in artifacts by { WritableExists(id, command.expectedRevision); }
      var artifact := artifacts[id];
      if artifact.nextSequence != command.content.sequence { return Refused(SequenceConflict); }
      if !HoldsClaim(id, now, command.lease.run, command.lease.token) { return Refused(ClaimInvalid); }
      assert id in claims by { HolderHasClaim(id, now, command.lease.run, command.lease.token); }
      var batch := Batch(command.content, command.key, artifact.revision + 1);
      var receipt := ReceiptOf(batch);
      batches := batches[id := batches[id] + [batch]];
      receipts := receipts[at := receipt];
      digests := digests[at := command.content];
      artifacts := artifacts[id := artifact.(revision := batch.committedRevision, nextSequence := command.content.sequence + 1,
                                             committedItems := artifact.committedItems + |command.content.items|)];
      claims := claims[id := claims[id].(revision := batch.committedRevision, expires := now + command.lease.duration)];
      updated := updated[id := now];
      return Receipted(receipt, false);
    }

    lemma WritableExists(id: string, expected: pos)
      requires WriteFault(View(), id, expected).None?
      ensures id in artifacts
    {
    }

    lemma HolderHasClaim(id: string, now: nat, run: string, token: nat)
      requires Accepts(View(), id, now, run, token)
      ensures id in claims
    {
    }

    method Finalize(now: nat, id: string, expected: pos, lease: Lease, resource: Option<string>, coverage: string)
      returns (r: Reply)
      requires Valid()
      modifies this`artifacts, this`claims, this`updated
      ensures Valid() && Result(View(), r) == Close(old(View()), now, id, expected, lease, Some((resource, coverage)))
    {
      hide Sound, Accepts;
      Keeps(now, DoFinalize(id, expected, lease, resource, coverage));
      var fault := RequireWritable(id, expected);
      if fault.Some? { return Refused(fault.value); }
      if !HoldsClaim(id, now, lease.run, lease.token) { return Refused(ClaimInvalid); }
      var finalized := artifacts[id].(status := Finalized, revision := artifacts[id].revision + 1, resource := resource,
                                      coverage := Some(coverage));
      artifacts := artifacts[id := finalized];
      claims := claims - {id};
      updated := updated[id := now];
      return Stored(finalized);
    }

    method Abort(now: nat, id: string, expected: pos, lease: Lease) returns (r: Reply)
      requires Valid()
      modifies this`artifacts, this`claims, this`updated
      ensures Valid() && Result(View(), r) == Close(old(View()), now, id, expected, lease, None)
    {
      hide Sound, Accepts;
      Keeps(now, DoAbort(id, expected, lease));
      var fault := RequireWritable(id, expected);
      if fault.Some? { return Refused(fault.value); }
      if !HoldsClaim(id, now, lease.run, lease.token) { return Refused(ClaimInvalid); }
      var aborted := artifacts[id].(status := Aborted, revision := artifacts[id].revision + 1);
      artifacts := artifacts[id := aborted];
      claims := claims - {id};
      updated := updated[id := now];
      return Stored(aborted);
    }

    // ----- claims -----------------------------------------------------------

    method Acquire(now: nat, id: string, run: string, expected: pos, duration: pos) returns (r: Reply)
      requires Valid()
      modifies this`claims, this`nextToken
      ensures Valid() && Result(View(), r) == Artifacts.Acquire(old(View()), now, id, run, expected, duration)
    {
      hide Sound;
      Keeps(now, DoAcquire(id, run, expected, duration));
      var fault := RequireWritable(id, expected);
      if fault.Some? { return Refused(fault.value); }
      var current := ActiveClaim(id, now);
      if current.Some? {
        return if current.value.run == run && current.value.revision == expected then Claimed(current.value)
               else Refused(ClaimConflict);
      }
      var claim := Claim(id, run, nextToken, artifacts[id].revision, now + duration);
      nextToken := nextToken + 1;
      claims := claims[id := claim];
      return Claimed(claim);
    }

    method Renew(now: nat, id: string, lease: Lease) returns (r: Reply)
      requires Valid()
      modifies this`claims
      ensures Valid() && Result(View(), r) == Artifacts.Renew(old(View()), now, id, lease)
    {
      hide Sound;
      Keeps(now, DoRenew(id, lease));
      if id !in artifacts { return Refused(NotFound); }
      if !HoldsClaim(id, now, lease.run, lease.token) { return Refused(ClaimInvalid); }
      var renewed := claims[id].(expires := now + lease.duration);
      claims := claims[id := renewed];
      return Claimed(renewed);
    }

    method Release(id: string, run: string, token: nat) returns (r: Reply)
      requires Valid()
      modifies this`claims
      ensures Valid() && Result(View(), r) == Artifacts.Release(old(View()), id, run, token)
    {
      hide Sound;
      Keeps(0, DoRelease(id, run, token));
      if id !in claims || claims[id].run != run || claims[id].token != token { return Released(0); }
      claims := claims - {id};
      return Released(1);
    }

    static method HeldBy(claims: map<string, Claim>, run: string) returns (ids: set<string>)
      ensures ids == set id | id in claims && claims[id].run == run
    {
      var rest := claims.Keys;
      ids := {};
      while rest != {}
        invariant rest <= claims.Keys && forall id :: id in ids <==> id in claims && id !in rest && claims[id].run == run
        decreases |rest|
      {
        var id :| id in rest;
        if claims[id].run == run { ids := ids + {id}; }
        rest := rest - {id};
      }
    }

    method ReleaseForRun(run: string) returns (r: Reply)
      requires Valid()
      modifies this`claims
      ensures Valid() && Result(View(), r) == Artifacts.ReleaseForRun(old(View()), run)
    {
      hide Sound;
      Keeps(0, DoReleaseForRun(run));
      var targets := HeldBy(claims, run);
      assert targets == ClaimsOf(View(), run);
      claims := claims - targets;
      return Released(|targets|);
    }

    // ----- maintenance ------------------------------------------------------

    /** Drops every claim that expired, whose Run is gone, or that has no valid target, and counts them. */
    method ReclaimClaims(now: nat, available: set<string>) returns (expired: nat, unavailable: nat, invalid: nat)
      modifies this`claims
      ensures claims == old(claims) - Reclaimed(old(View()), now, available)
      ensures expired == |ExpiredClaims(old(View()), now)| && unavailable == |OrphanedClaims(old(View()), now, available)|
      ensures invalid == |MisplacedClaims(old(View()), now, available)|
    {
      var left;
      left, expired, unavailable, invalid := SweepClaims(View(), now, available, artifacts, claims);
      claims := left;
    }

    static method SweepClaims(ghost s: Store, now: nat, available: set<string>, artifacts: map<string, Artifact>,
                              claims: map<string, Claim>)
      returns (left: map<string, Claim>, expired: nat, unavailable: nat, invalid: nat)
      requires artifacts == s.artifacts && claims == s.claims
      ensures left == claims - Reclaimed(s, now, available)
      ensures expired == |ExpiredClaims(s, now)| && unavailable == |OrphanedClaims(s, now, available)|
      ensures invalid == |MisplacedClaims(s, now, available)|
    {
      hide ExpiredClaims, OrphanedClaims, MisplacedClaims, Reclaimed, Judge, Seen, Kept;
      ghost var (e, o, m) := (ExpiredClaims(s, now), OrphanedClaims(s, now, available), MisplacedClaims(s, now, available));
      left, expired, unavailable, invalid := claims, 0, 0, 0;
      var rest := claims.Keys;
      NothingSeen(s, now, available);
      while rest != {}
        invariant rest <= claims.Keys
        invariant expired == Seen(e, rest) && unavailable == Seen(o, rest) && invalid == Seen(m, rest)
        invariant left == Kept(s, now, available, rest)
        decreases |rest|
      {
        var id :| id in rest;
        var fate := Judge(now, available, claims[id], artifacts, id);
        OneSeen(s, now, available, rest, id);
        rest := rest - {id};
        match fate {
          case Lapsed => expired := expired + 1;
          case Unowned => unavailable := unavailable + 1;
          case Stray => invalid := invalid + 1;
          case Live => continue;
        }
        left := left - {id};
      }
      AllSeen(s, now, available);
    }

    /** How many of a set were looked at, when `rest` still waits. */
    ghost static function Seen(all: set<string>, rest: set<string>): nat { |all - rest| }

    ghost static function Kept(s: Store, now: nat, available: set<string>, rest: set<string>): map<string, Claim> {
      s.claims - (Reclaimed(s, now, available) - rest)
    }

    static lemma NothingSeen(s: Store, now: nat, available: set<string>)
      ensures var rest := s.claims.Keys;
        && Seen(ExpiredClaims(s, now), rest) == 0 && Seen(OrphanedClaims(s, now, available), rest) == 0
        && Seen(MisplacedClaims(s, now, available), rest) == 0 && Kept(s, now, available, rest) == s.claims
    {
      assert ExpiredClaims(s, now) - s.claims.Keys == {} && OrphanedClaims(s, now, available) - s.claims.Keys == {};
      assert MisplacedClaims(s, now, available) - s.claims.Keys == {};
      assert Reclaimed(s, now, available) - s.claims.Keys == {};
    }

    static lemma OneSeen(s: Store, now: nat, available: set<string>, rest: set<string>, id: string)
      requires id in rest && id in s.claims
      ensures var (fate, less) := (Judge(now, available, s.claims[id], s.artifacts, id), rest - {id});
        && Seen(ExpiredClaims(s, now), less) == Seen(ExpiredClaims(s, now), rest) + (if fate.Lapsed? then 1 else 0)
        && (Seen(OrphanedClaims(s, now, available), less)
              == Seen(OrphanedClaims(s, now, available), rest) + if fate.Unowned? then 1 else 0)
        && (Seen(MisplacedClaims(s, now, available), less)
              == Seen(MisplacedClaims(s, now, available), rest) + if fate.Stray? then 1 else 0)
        && (Kept(s, now, available, less)
              == if fate.Live? then Kept(s, now, available, rest) else Kept(s, now, available, rest) - {id})
    {
      hide ExpiredClaims, OrphanedClaims, MisplacedClaims, Judge;
      Classified(s, now, available, id);
      OneLess(ExpiredClaims(s, now), rest, id);
      OneLess(OrphanedClaims(s, now, available), rest, id);
      OneLess(MisplacedClaims(s, now, available), rest, id);
      DropOne(s.claims, Reclaimed(s, now, available), rest, id);
    }

    static lemma AllSeen(s: Store, now: nat, available: set<string>)
      ensures Seen(ExpiredClaims(s, now), {}) == |ExpiredClaims(s, now)|
      ensures Seen(OrphanedClaims(s, now, available), {}) == |OrphanedClaims(s, now, available)|
      ensures Seen(MisplacedClaims(s, now, available), {}) == |MisplacedClaims(s, now, available)|
      ensures Kept(s, now, available, {}) == s.claims - Reclaimed(s, now, available)
    {
      hide ExpiredClaims, OrphanedClaims, MisplacedClaims, Reclaimed;
      assert ExpiredClaims(s, now) - {} == ExpiredClaims(s, now);
      assert OrphanedClaims(s, now, available) - {} == OrphanedClaims(s, now, available);
      assert MisplacedClaims(s, now, available) - {} == MisplacedClaims(s, now, available);
      assert Reclaimed(s, now, available) - {} == Reclaimed(s, now, available);
    }

    static lemma OneLess(all: set<string>, rest: set<string>, id: string)
      requires id in rest
      ensures Seen(all, rest - {id}) == Seen(all, rest) + if id in all then 1 else 0
    {
      assert all - (rest - {id}) == if id in all then all - rest + {id} else all - rest;
    }

    static lemma DropOne(m: map<string, Claim>, all: set<string>, rest: set<string>, id: string)
      requires id in rest
      ensures m - (all - (rest - {id})) == if id in all then m - (all - rest) - {id} else m - (all - rest)
    {
      assert all - (rest - {id}) == if id in all then all - rest + {id} else all - rest;
    }

    static lemma Classified(s: Store, now: nat, available: set<string>, id: string)
      requires id in s.claims
      ensures id in ExpiredClaims(s, now) <==> Judge(now, available, s.claims[id], s.artifacts, id).Lapsed?
      ensures id in OrphanedClaims(s, now, available) <==> Judge(now, available, s.claims[id], s.artifacts, id).Unowned?
      ensures id in MisplacedClaims(s, now, available) <==> Judge(now, available, s.claims[id], s.artifacts, id).Stray?
    {
    }

    method PurgeCandidates(cutoff: int) returns (ids: set<string>)
      ensures ids == Purgeable(View(), cutoff)
    {
      ids := {};
      var rest := updated.Keys;
      while rest != {}
        invariant rest <= updated.Keys && ids == Purgeable(View(), cutoff) - rest
        decreases |rest|
      {
        var id :| id in rest;
        if id in artifacts && !artifacts[id].status.Open? && updated[id] <= cutoff { ids := ids + {id}; }
        rest := rest - {id};
      }
    }

    method Soonest(ids: set<string>) returns (first: string)
      requires ids != {} && ids <= updated.Keys
      ensures first in ids && forall id :: id in ids && id != first ==> Sooner(View(), first, id)
    {
      first :| first in ids;
      var rest := ids - {first};
      while rest != {}
        invariant rest < ids && first in ids - rest
        invariant forall id :: id in ids - rest && id != first ==> Sooner(View(), first, id)
        decreases |rest|
      {
        var id :| id in rest;
        rest := rest - {id};
        if Precedes(id, first) {
          forall x | x in ids - rest && x != first && x != id ensures Sooner(View(), id, x) { SoonerTwice(id, first, x); }
          first := id;
        } else { SoonerIsTotal(id, first); }
      }
    }

    predicate Precedes(a: string, b: string)
      requires a in updated && b in updated
      reads this
      ensures Precedes(a, b) == Sooner(View(), a, b)
    {
      updated[a] < updated[b] || (updated[a] == updated[b] && Lexical.Below(Lexical.Codes(a), Lexical.Codes(b)))
    }

    lemma SoonerTwice(a: string, b: string, c: string)
      requires a in updated && b in updated && c in updated && Sooner(View(), a, b) && Sooner(View(), b, c)
      ensures Sooner(View(), a, c)
    {
      var (x, y, z) := (Lexical.Codes(a), Lexical.Codes(b), Lexical.Codes(c));
      if Lexical.Below(x, y) && Lexical.Below(y, z) { Lexical.Transitive(x, y, z); }
    }

    lemma SoonerIsTotal(a: string, b: string)
      requires a in updated && b in updated && a != b && !Sooner(View(), a, b)
      ensures Sooner(View(), b, a)
    {
      Lexical.Total(Lexical.Codes(a), Lexical.Codes(b));
      if Lexical.Codes(a) == Lexical.Codes(b) { Lexical.CodesInjective(a, b); }
    }

    /** The first `max` candidates, oldest first. */
    method FirstToPurge(cutoff: int, max: pos) returns (list: seq<string>)
      requires Valid()
      ensures IsPurgeList(View(), cutoff, max, list)
    {
      hide Sound;
      KeysAgree();
      var rest := PurgeCandidates(cutoff);
      list := [];
      while rest != {} && |list| < max
        invariant rest <= Purgeable(View(), cutoff) && |list| <= max
        invariant forall id :: id in Purgeable(View(), cutoff) <==> id in rest || id in list
        invariant forall i :: 0 <= i < |list| ==> list[i] in Purgeable(View(), cutoff)
        invariant forall i, j :: 0 <= i < j < |list| ==> Sooner(View(), list[i], list[j])
        invariant forall i, id :: 0 <= i < |list| && id in rest ==> Sooner(View(), list[i], id)
        decreases |rest|
      {
        var first := Soonest(rest);
        list := list + [first];
        rest := rest - {first};
      }
    }

    /** The entries that do not belong to an artifact. */
    static method Without<V>(m: map<(string, string), V>, id: string) returns (left: map<(string, string), V>)
      ensures left == map k | k in m && k.0 != id :: m[k]
    {
      left := m;
      var rest := m.Keys;
      while rest != {}
        invariant rest <= m.Keys && left.Keys <= m.Keys
        invariant forall k :: k in m ==> (k in left <==> k in rest || k.0 != id)
        invariant forall k :: k in left ==> left[k] == m[k]
        decreases |rest|
      {
        var k :| k in rest;
        rest := rest - {k};
        if k.0 == id { left := left - {k}; }
      }
    }

    /** Removes an artifact and everything kept for it. */
    method PurgeArtifact(id: string)
      requires id in artifacts
      modifies this
      ensures View() == Purged(old(View()), id)
    {
      owners := owners - {artifacts[id].created.owner};
      artifacts := artifacts - {id};
      batches := batches - {id};
      claims := claims - {id};
      updated := updated - {id};
      var keptReceipts := Without(receipts, id);
      var keptDigests := Without(digests, id);
      receipts, digests := keptReceipts, keptDigests;
    }

    /** Drops reclaimable claims and purges old closed artifacts; no claim is ever found on an invalid target. */
    method Maintain(now: nat, available: set<string>, cutoff: Option<int>, max: pos) returns (r: Reply, ghost purge: seq<string>)
      requires Valid()
      modifies this
      ensures Valid() && Result(View(), r) == Artifacts.Maintain(old(View()), now, available, purge)
      ensures Admissible(old(View()), now, DoMaintain(available, cutoff, max, purge))
      ensures r.Report? && r.invalid == 0
    {
      hide Sound, Purged;
      ghost var before := View();
      ArtifactLaws.SoundClaimsArePlaced(before, now, available);
      ArtifactLaws.ReclaimIsSound(before, now, available);
      var expired, unavailable, invalid := ReclaimClaims(now, available);
      ghost var reclaimed := View();
      var list := [];
      if cutoff.Some? { list := FirstToPurge(cutoff.value, max); }
      purge := list;
      ArtifactLaws.PurgeAllIsSound(reclaimed, list);
      KeysAgree();
      if cutoff.Some? { ArtifactLaws.PurgeListEntries(reclaimed, cutoff.value, max, list); }
      var i := 0;
      while i < |list|
        invariant i <= |list| && Valid()
        invariant PurgeAll(View(), list[i..]) == PurgeAll(reclaimed, list)
        invariant forall j :: i <= j < |list| ==> list[j] in artifacts
      {
        KeysAgree();
        ghost var here := View();
        assert list[i..][0] == list[i] && list[i..][1..] == list[i + 1..];
        ArtifactLaws.PurgedIsSound(here, list[i]);
        PurgedArtifacts(here, list[i]);
        PurgeArtifact(list[i]);
        i := i + 1;
      }
      assert list[i..] == [];
      r := Report(expired, unavailable, invalid, |list|);
    }

    lemma PurgedArtifacts(s: Store, id: string)
      requires id in s.artifacts
      ensures Purged(s, id).artifacts == s.artifacts - {id}
    {
    }
  }
}
