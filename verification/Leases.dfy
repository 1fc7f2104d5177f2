/** The registry of short-lived proxy leases, pruned on every access, against
    the full history of what was issued. */
module Leases {
  import opened Wrappers
  import opened Tunnels

  datatype Digest = Digest(bytes: seq<bv8>)

  datatype Record = Record(pool: Id, container: Id, internalUrl: Url, gateway: string, digest: Digest, expiresAt: int)

  type Table = map<Id, Record>

  /** Drop what has expired: a lease is good strictly before its expiry. */
  function Prune(leases: Table, now: int): Table {
    map id | id in leases && now < leases[id].expiresAt :: leases[id]
  }

  function Find(leases: Table, id: Id, digest: Digest): Option<Record> {
    if id in leases && leases[id].digest == digest then Some(leases[id]) else None
  }

  datatype Acquisition = Acquisition(tunnel: Option<Tunnel>, pool: Id)

  /** The checks Issue makes before it creates a lease. */
  predicate Leasable(acq: Acquisition) {
    && acq.tunnel.Some? && acq.pool.text != ""
    && acq.tunnel.value.container.text != "" && acq.tunnel.value.url.Some? && acq.tunnel.value.gateway != ""
  }

  function RecordFor(acq: Acquisition, digest: Digest, expiresAt: int): Record
    requires Leasable(acq)
  {
    var t := acq.tunnel.value;
    Record(acq.pool, t.container, t.url.value, t.gateway, digest, expiresAt)
  }

  class Registry {
    const ttl: int
    const digest: string -> Digest
    var leases: Table

    constructor (ttl: int, digest: string -> Digest)
      ensures this.ttl == ttl && this.digest == digest && leases == map[]
    {
      this.ttl, this.digest, leases := ttl, digest, map[];
    }

    method PruneExpired(now: int)
      modifies this`leases
      ensures leases == Prune(old(leases), now)
    {
      var todo := leases.Keys;
      while todo != {}
        invariant todo <= old(leases).Keys
        invariant leases.Keys <= old(leases).Keys
        invariant forall id | id in old(leases) :: id in leases <==> id in todo || now < old(leases)[id].expiresAt
        invariant forall id | id in leases :: leases[id] == old(leases)[id]
      {
        var id :| id in todo;
        todo := todo - {id};
        if !(now < leases[id].expiresAt) {
          leases := leases - {id};
        }
      }
    }

    /** leaseId and secret are the two random parts. */
    method Issue(acq: Acquisition, leaseId: Id, secret: string, now: int) returns (expiresAt: Option<int>)
      modifies this`leases
      ensures expiresAt == if Leasable(acq) then Some(now + ttl) else None
      ensures leases == if Leasable(acq)
                        then Prune(old(leases), now)[leaseId := RecordFor(acq, digest(secret), now + ttl)]
                        else old(leases)
    {
      if acq.tunnel.None? || acq.pool.text == "" || acq.tunnel.value.container.text == ""
         || acq.tunnel.value.url.None? || acq.tunnel.value.gateway == "" {
        return None;
      }
      PruneExpired(now);
      var t := acq.tunnel.value;
      leases := leases[leaseId := Record(acq.pool, t.container, t.url.value, t.gateway, digest(secret), now + ttl)];
      return Some(now + ttl);
    }

    method Lookup(leaseId: Id, secret: string, now: int) returns (r: Option<Record>)
      modifies this`leases
      ensures leases == Prune(old(leases), now)
      ensures r == Find(leases, leaseId, digest(secret))
    {
      PruneExpired(now);
      if leaseId !in leases || leases[leaseId].digest != digest(secret) {
        return None;
      }
      return Some(leases[leaseId]);
    }
  }

  // ---------- History ----------

  datatype Op = Issued(at: int, id: Id, record: Record) | LookedUp(at: int)

  /** The table after a history. */
  function After(ops: seq<Op>): Table {
    if ops == [] then map[]
    else
      var before := After(ops[..|ops| - 1]);
      match ops[|ops| - 1]
      case Issued(at, id, record) => Prune(before, at)[id := record]
      case LookedUp(at) => Prune(before, at)
  }

  /** The record last issued under id. */
  function LastIssued(ops: seq<Op>, id: Id): Option<Record> {
    if ops == [] then None
    else
      var op := ops[|ops| - 1];
      if op.Issued? && op.id == id then Some(op.record) else LastIssued(ops[..|ops| - 1], id)
  }

  /** Pruning along the way never shows: the table pruned now holds exactly the
      unexpired last issues. */
  lemma {:induction false} TableIsHistory(ops: seq<Op>, id: Id, now: int)
    requires forall i | 0 <= i < |ops| :: ops[i].at <= now
    ensures var kept := Prune(After(ops), now);
            && (id in kept <==> LastIssued(ops, id).Some? && now < LastIssued(ops, id).value.expiresAt)
            && (id in kept ==> kept[id] == LastIssued(ops, id).value)
  {
    if ops != [] {
      TableIsHistory(ops[..|ops| - 1], id, now);
    }
  }

  /** No lease ID was issued twice. */
  predicate DistinctIds(ops: seq<Op>) {
    forall i, j | 0 <= i < j < |ops| && ops[i].Issued? && ops[j].Issued? :: ops[i].id != ops[j].id
  }

  lemma {:induction false} LastIssuedAt(ops: seq<Op>, id: Id, i: nat)
    requires DistinctIds(ops) && i < |ops| && ops[i].Issued? && ops[i].id == id
    ensures LastIssued(ops, id) == Some(ops[i].record)
  {
    if i < |ops| - 1 {
      LastIssuedAt(ops[..|ops| - 1], id, i);
    }
  }

  lemma {:induction false} LastIssuedFrom(ops: seq<Op>, id: Id) returns (i: nat)
    requires LastIssued(ops, id).Some?
    ensures i < |ops| && ops[i].Issued? && ops[i].id == id && ops[i].record == LastIssued(ops, id).value
  {
    i := |ops| - 1;
    if !(ops[i].Issued? && ops[i].id == id) {
      i := LastIssuedFrom(ops[..|ops| - 1], id);
    }
  }

  /** The issue in the history that a lookup finds. */
  ghost predicate Grants(ops: seq<Op>, i: int, id: Id, digest: Digest, now: int, ttl: int) {
    0 <= i < |ops| && ops[i].Issued? && ops[i].id == id && ops[i].record.digest == digest && now < ops[i].at + ttl
  }

  /** Lookup succeeds exactly when that ID was issued with that digest less than a
      ttl ago, and then returns the record as issued. */
  lemma LookupExact(ops: seq<Op>, id: Id, digest: Digest, now: int, ttl: int)
    requires forall i | 0 <= i < |ops| :: ops[i].at <= now
    requires forall i | 0 <= i < |ops| && ops[i].Issued? :: ops[i].record.expiresAt == ops[i].at + ttl
    requires DistinctIds(ops)
    ensures Find(Prune(After(ops), now), id, digest).Some? <==> exists i :: Grants(ops, i, id, digest, now, ttl)
    ensures forall i | Grants(ops, i, id, digest, now, ttl) ::
              Find(Prune(After(ops), now), id, digest) == Some(ops[i].record)
  {
    TableIsHistory(ops, id, now);
    forall i | Grants(ops, i, id, digest, now, ttl)
      ensures Find(Prune(After(ops), now), id, digest) == Some(ops[i].record)
    {
      LastIssuedAt(ops, id, i);
    }
    if LastIssued(ops, id).Some? {
      var i := LastIssuedFrom(ops, id);
      if Find(Prune(After(ops), now), id, digest).Some? {
        assert Grants(ops, i, id, digest, now, ttl);
      }
    }
  }

  /** An issue for an acquisition, anywhere in a history with distinct IDs: a later
      lookup with its ID and digest finds it exactly before issue time plus TTL, and
      what it finds names the acquisition's pool, container, URL and gateway. */
  lemma IssuedFound(ops: seq<Op>, i: nat, acq: Acquisition, digest: Digest, now: int, ttl: int)
    requires Leasable(acq) && i < |ops| && ops[i].Issued?
    requires ops[i].record == RecordFor(acq, digest, ops[i].at + ttl)
    requires forall j | 0 <= j < |ops| :: ops[j].at <= now
    requires forall j | 0 <= j < |ops| && ops[j].Issued? :: ops[j].record.expiresAt == ops[j].at + ttl
    requires DistinctIds(ops)
    ensures var r := Find(Prune(After(ops), now), ops[i].id, digest);
            && (r.Some? <==> now < ops[i].at + ttl)
            && (r.Some? ==> r.value.pool == acq.pool && r.value.container == acq.tunnel.value.container
                            && Some(r.value.internalUrl) == acq.tunnel.value.url && r.value.gateway == acq.tunnel.value.gateway)
  {
    LookupExact(ops, ops[i].id, digest, now, ttl);
    if now < ops[i].at + ttl { assert Grants(ops, i, ops[i].id, digest, now, ttl); }
    if j :| Grants(ops, j, ops[i].id, digest, now, ttl) { assert j == i; }
  }
}
