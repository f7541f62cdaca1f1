/** Idempotency keys of message creation, direct send and forward: internal/messages/repository.go
    (claimIdempotency, completeIdempotency, deliveryResult) as internal/messages/service.go uses them.
    A per-key advisory lock makes each request one step; its clock reading was taken before. */
module Idempotency {
  import opened Basics
  import Encoding

  type Id = nat

  const NIL: Id := 0
  const ZERO: int := 0            // Go's zero time
  const DAY := 24 * 60 * 60

  datatype Operation = Create | Direct | Forward
  datatype Key = Key(user: Id, op: Operation, key: string)
  datatype Receipt = Receipt(message: Id, created: int, expires: int)
  datatype Claim = Claim(hash: Bytes, resource: Id, receipt: Receipt, version: int, expires: int)

  // `expiry` is what creating the message would give it; None when creating it fails.
  datatype Request = Request(key: Key, hash: Bytes, now: int, expiry: Option<int>)

  datatype Reply = Made(receipt: Receipt, version: int) | Replayed(receipt: Receipt, version: int) | Found(message: Id) | KeyReused | Failed | Corrupt

  datatype Ledger = Ledger(claims: map<Key, Claim>, made: map<Id, Key>, next: Id)

  datatype IdemResult = Fresh | Prior(claim: Claim) | Reused

  // deliveryResult: rows written before versions were stored stand for version 1.
  function Delivery(c: Claim): Reply {
    if c.receipt.message == NIL || c.receipt.created == ZERO || c.receipt.expires == ZERO || c.receipt.message != c.resource then Corrupt
    else Replayed(c.receipt, if c.version == 0 then 1 else c.version)
  }

  class Store {
    var claims: map<Key, Claim>
    var made: map<Id, Key>       // every message created, and for which key
    var next: Id

    constructor ()
      ensures View() == Ledger(map[], map[], 1)
    { claims, made, next := map[], map[], 1; }

    function View(): Ledger
      reads this
    { Ledger(claims, made, next) }

    method ClaimKey(k: Key, hash: Bytes, now: int) returns (r: IdemResult)
      modifies this`claims
      ensures r == if k !in old(claims) || old(claims)[k].expires <= now then Fresh
                   else if old(claims)[k].hash != hash then Reused else Prior(old(claims)[k])
      ensures claims == if r.Fresh? then old(claims) - {k} else old(claims)
    {
      if k !in claims { return Fresh; }
      var row := claims[k];
      if row.expires <= now { claims := claims - {k}; return Fresh; }
      if row.hash != hash { return Reused; }
      r := Prior(row);
    }

    method Complete(k: Key, hash: Bytes, resource: Id, receipt: Receipt, now: int)
      requires k !in claims
      modifies this`claims
      ensures claims == old(claims)[k := Claim(hash, resource, receipt, 1, now + DAY)]
    {
      claims := claims[k := Claim(hash, resource, receipt, 1, now + DAY)];
    }

    // CreateResult, DirectSendResult, ForwardResult: the transaction around the creation.
    method Serve(r: Request) returns (reply: Reply)
      modifies this
      ensures (View(), reply) == Served(old(View()), r)
    {
      var before := claims;
      var idem := ClaimKey(r.key, r.hash, r.now);
      if idem.Reused? { return KeyReused; }
      if idem.Prior? {
        if r.key.op == Create { return Found(idem.claim.resource); }
        return Delivery(idem.claim);
      }
      if r.expiry.None? { claims := before; return Failed; }
      var id := next;
      next := next + 1;
      made := made[id := r.key];
      var receipt := Receipt(id, r.now, r.expiry.value);
      Complete(r.key, r.hash, id, receipt, r.now);
      assert claims == before[r.key := claims[r.key]];
      reply := Made(receipt, 1);
    }
  }

  // What one request does.
  function Served(l: Ledger, r: Request): (Ledger, Reply) {
    if r.key in l.claims && l.claims[r.key].expires > r.now then
      (l, if l.claims[r.key].hash != r.hash then KeyReused
          else if r.key.op == Create then Found(l.claims[r.key].resource)
          else Delivery(l.claims[r.key]))
    else if r.expiry.None? then (l, Failed)
    else
      var receipt := Receipt(l.next, r.now, r.expiry.value);
      (Ledger(l.claims[r.key := Claim(r.hash, l.next, receipt, 1, r.now + DAY)], l.made[l.next := r.key], l.next + 1), Made(receipt, 1))
  }

  // A stored receipt is replayed as it is, unless it is incomplete or another message's; rows without a version are version 1.
  lemma DeliveryMeaning(c: Claim)
    ensures Delivery(c) ==
              if c.receipt.message == 0 || c.receipt.message != c.resource || c.receipt.created == 0 || c.receipt.expires == 0 then Corrupt
              else if c.version == 0 then Replayed(c.receipt, 1) else Replayed(c.receipt, c.version)
  {}

  // ---- Runs ----------------------------------------------------------------------------------------

  ghost predicate IsRun(run: seq<Ledger>, asks: seq<Request>) {
    && |run| == |asks| + 1 && run[0] == Ledger(map[], map[], 1)
    && (forall i | 0 <= i < |asks| :: asks[i].now > ZERO && (asks[i].expiry.Some? ==> asks[i].expiry.value > ZERO))
    && forall i | 0 <= i < |asks| :: run[i + 1] == Served(run[i], asks[i]).0
  }

  function ReplyTo(run: seq<Ledger>, asks: seq<Request>, i: nat): Reply
    requires |run| == |asks| + 1 && i < |asks|
  { Served(run[i], asks[i]).1 }

  ghost predicate MadeAt(run: seq<Ledger>, asks: seq<Request>, i: nat)
    requires |run| == |asks| + 1 && i < |asks|
  { ReplyTo(run, asks, i).Made? }

  // From the creation until any clock reading reaches its expiry, the claim is in force.
  lemma {:induction false} ClaimStays(run: seq<Ledger>, asks: seq<Request>, i: nat, n: nat)
    requires IsRun(run, asks) && i < n <= |asks| && MadeAt(run, asks, i)
    requires forall k | i < k < n :: asks[k].now < asks[i].now + DAY
    ensures var receipt := ReplyTo(run, asks, i).receipt;
            asks[i].key in run[n].claims
            && run[n].claims[asks[i].key] == Claim(asks[i].hash, receipt.message, receipt, 1, asks[i].now + DAY)
  {
    if n > i + 1 {
      ClaimStays(run, asks, i, n - 1);
      assert run[n] == Served(run[n - 1], asks[n - 1]).0;
    }
  }

  lemma {:induction false} NextPositive(run: seq<Ledger>, asks: seq<Request>, n: nat)
    requires IsRun(run, asks) && n <= |asks|
    ensures run[n].next > NIL
  {
    if n > 0 { NextPositive(run, asks, n - 1); }
  }

  /** Until a clock reading reaches 24 hours after the creation, a repeated key never creates anything again: the same
      request gets the original message, with the identical receipt and version, and a different one is refused. */
  lemma RepeatsReplay(run: seq<Ledger>, asks: seq<Request>, i: nat, j: nat)
    requires IsRun(run, asks) && i < j < |asks| && MadeAt(run, asks, i) && asks[j].key == asks[i].key
    requires forall k | i < k <= j :: asks[k].now < asks[i].now + 86400
    ensures run[j + 1] == run[j]
    ensures var first := ReplyTo(run, asks, i);
            ReplyTo(run, asks, j) == if asks[j].hash != asks[i].hash then KeyReused
                                     else if asks[j].key.op == Create then Found(first.receipt.message)
                                     else Replayed(first.receipt, first.version)
  {
    ClaimStays(run, asks, i, j);
    NextPositive(run, asks, i);
  }

  /** What a creation answers and stores: the next identifier, created at the request's reading and expiring when the message
      does, at version 1; its key is taken for 24 hours of readings. */
  lemma CreationMeaning(run: seq<Ledger>, asks: seq<Request>, i: nat)
    requires IsRun(run, asks) && i < |asks| && MadeAt(run, asks, i)
    ensures var r := asks[i]; var id := run[i].next;
            && r.expiry.Some? && ReplyTo(run, asks, i) == Made(Receipt(id, r.now, r.expiry.value), 1)
            && run[i + 1].made == run[i].made[id := r.key] && run[i + 1].next == id + 1
            && r.key in run[i + 1].claims && run[i + 1].claims[r.key].hash == r.hash && run[i + 1].claims[r.key].expires == r.now + 86400
            && run[i + 1].claims - {r.key} == run[i].claims - {r.key}
  {
    assert run[i + 1] == Served(run[i], asks[i]).0;
  }

  /** A key that no creation used in the last 24 hours, or ever, is free: the request creates, or fails if creating fails. */
  lemma FreeKeyCreates(run: seq<Ledger>, asks: seq<Request>, j: nat)
    requires IsRun(run, asks) && j < |asks|
    requires forall i | 0 <= i < j && asks[i].key == asks[j].key && MadeAt(run, asks, i) :: asks[i].now + 86400 <= asks[j].now
    ensures if asks[j].expiry.Some? then MadeAt(run, asks, j) else ReplyTo(run, asks, j) == Failed && run[j + 1] == run[j]
  {
    assert run[j + 1] == Served(run[j], asks[j]).0;
    if asks[j].key in run[j].claims { var i := ClaimOrigin(run, asks, j, asks[j].key); }
  }

  /** So two creations under one key are at least 24 hours of clock readings apart. */
  lemma CreationsAreSpaced(run: seq<Ledger>, asks: seq<Request>, i: nat, j: nat) returns (k: nat)
    requires IsRun(run, asks) && i < j < |asks| && MadeAt(run, asks, i) && MadeAt(run, asks, j) && asks[j].key == asks[i].key
    ensures i < k <= j && asks[k].now >= asks[i].now + 86400
  {
    if k' :| i < k' <= j && asks[k'].now >= asks[i].now + 86400 {
      k := k';
    } else {
      RepeatsReplay(run, asks, i, j);
      assert false;
    }
  }

  // Every claim in force was written by a creation, the last one under its key.
  lemma {:induction false} ClaimOrigin(run: seq<Ledger>, asks: seq<Request>, n: nat, k: Key) returns (i: nat)
    requires IsRun(run, asks) && n <= |asks| && k in run[n].claims
    ensures i < n && MadeAt(run, asks, i) && asks[i].key == k
    ensures var receipt := ReplyTo(run, asks, i).receipt;
            run[n].claims[k] == Claim(asks[i].hash, receipt.message, receipt, 1, asks[i].now + DAY)
    ensures forall j | i < j < n && asks[j].key == k :: !MadeAt(run, asks, j)
  {
    if n == 0 {
      assert false;
    } else if asks[n - 1].key == k && MadeAt(run, asks, n - 1) {
      i := n - 1;
    } else {
      assert run[n] == Served(run[n - 1], asks[n - 1]).0;
      i := ClaimOrigin(run, asks, n - 1, k);
    }
  }

  /** Whatever is replayed was made before, for the same key and the same request hash. */
  lemma ReplaysAreOriginal(run: seq<Ledger>, asks: seq<Request>, j: nat) returns (i: nat)
    requires IsRun(run, asks) && j < |asks| && (ReplyTo(run, asks, j).Replayed? || ReplyTo(run, asks, j).Found?)
    ensures i < j && MadeAt(run, asks, i) && asks[i].key == asks[j].key && asks[i].hash == asks[j].hash
    ensures var first := ReplyTo(run, asks, i); var again := ReplyTo(run, asks, j);
            if again.Found? then again.message == first.receipt.message
            else again == Replayed(first.receipt, first.version)
  {
    i := ClaimOrigin(run, asks, j, asks[j].key);
  }

  // No stored receipt is ever found invalid.
  lemma NeverCorrupt(run: seq<Ledger>, asks: seq<Request>, j: nat)
    requires IsRun(run, asks) && j < |asks|
    ensures !ReplyTo(run, asks, j).Corrupt?
  {
    if ReplyTo(run, asks, j).Corrupt? {
      var i := ClaimOrigin(run, asks, j, asks[j].key);
      NextPositive(run, asks, i);
      assert false;
    }
  }

  // ---- With the request encodings ------------------------------------------------------------------

  ghost predicate Collisionless(sha: Bytes -> Bytes) { forall x, y | sha(x) == sha(y) :: x == y }

  /** Two different direct sends under one key: the second is refused for 24 hours, and creates nothing. */
  lemma DifferentDirectSendRefused(run: seq<Ledger>, asks: seq<Request>, i: nat, j: nat, sha: Bytes -> Bytes, c: Encoding.Direct, d: Encoding.Direct)
    requires IsRun(run, asks) && Collisionless(sha) && Encoding.ShortDirect(c) && Encoding.ShortDirect(d)
    requires i < j < |asks| && MadeAt(run, asks, i) && asks[j].key == asks[i].key
    requires asks[i].hash == sha(Encoding.EncodeDirect(c)) && asks[j].hash == sha(Encoding.EncodeDirect(d)) && c != d
    requires forall k | i < k <= j :: asks[k].now < asks[i].now + 86400
    ensures ReplyTo(run, asks, j) == KeyReused && run[j + 1] == run[j]
  {
    if asks[i].hash == asks[j].hash {
      Encoding.DirectInjective(c, d);
      assert false;
    }
    RepeatsReplay(run, asks, i, j);
  }

  lemma DifferentForwardRefused(run: seq<Ledger>, asks: seq<Request>, i: nat, j: nat, sha: Bytes -> Bytes, c: Encoding.Forward, d: Encoding.Forward)
    requires IsRun(run, asks) && Collisionless(sha) && c.version < Encoding.MAXLEN && d.version < Encoding.MAXLEN
    requires i < j < |asks| && MadeAt(run, asks, i) && asks[j].key == asks[i].key
    requires asks[i].hash == sha(Encoding.EncodeForward(c)) && asks[j].hash == sha(Encoding.EncodeForward(d)) && c != d
    requires forall k | i < k <= j :: asks[k].now < asks[i].now + 86400
    ensures ReplyTo(run, asks, j) == KeyReused && run[j + 1] == run[j]
  {
    if asks[i].hash == asks[j].hash {
      Encoding.ForwardInjective(c, d);
      assert false;
    }
    RepeatsReplay(run, asks, i, j);
  }

  /** A creation is refused under a used key exactly when its scalar fields or its list of sorted tags and uploads differ;
      naming the tags in another order is the same request. */
  lemma CreateRefusedExactly(run: seq<Ledger>, asks: seq<Request>, i: nat, j: nat, sha: Bytes -> Bytes, c: Encoding.Create, d: Encoding.Create)
    requires IsRun(run, asks) && Collisionless(sha) && i < j < |asks| && MadeAt(run, asks, i) && asks[j].key == asks[i].key
    requires forall k | i < k <= j :: asks[k].now < asks[i].now + 86400
    requires Encoding.ShortCreate(c) && Encoding.ShortCreate(d)
    ensures run[j + 1] == run[j]
    ensures asks[i].hash == sha(Encoding.EncodeCreate(c)) && asks[j].hash == sha(Encoding.EncodeCreate(d)) ==>
              (ReplyTo(run, asks, j) == KeyReused
               <==> !(Encoding.SameScalars(c, d) && Encoding.Sort(c.tags) + c.uploads == Encoding.Sort(d.tags) + d.uploads))
  {
    Encoding.CreateEncodingExact(c, d);
    RepeatsReplay(run, asks, i, j);
  }
}
