/** A device and its server agree again on the next sequence number after lost replies and crashes
    (packages/cli/src/demoEnrollment.ts:236-333). The server accepts exactly its next number. */
module SequenceReconciliation {
  import opened Outcomes

  const RECEIPT_LIFETIME := 240000

  /** The request kept on disk while its fate is unknown. Its signature and scope are the device's own. */
  datatype Receipt = Receipt(sequence: nat, createdAt: int, generation: int)

  datatype Reply = Confirmed | OutOfOrder | Broken

  /** `next` and `signedReady` are the device's configuration, `receipt` its pending file, `server` the number
      the server will accept. */
  datatype Numbers = Numbers(next: nat, signedReady: bool, receipt: Option<Receipt>, server: nat)

  /** A receipt that survived a crash after its number was committed. */
  predicate IsLeftover(n: Numbers) {
    n.receipt.Some? && n.receipt.value.sequence < n.next
  }

  predicate IsPending(n: Numbers) {
    n.receipt.Some? && n.receipt.value.sequence >= n.next
  }

  predicate Agree(n: Numbers) {
    && 1 <= n.next
    && Tried(n) <= n.server
    && (IsLeftover(n) ==> n.signedReady && n.receipt.value.sequence + 1 == n.next)
  }

  /** The number to be tried first: the pending one, or the next. */
  function Tried(n: Numbers): nat {
    if IsPending(n) then n.receipt.value.sequence else n.next
  }

  /** How far that number lags behind the server. Without a pending receipt it lags only if one was lost. */
  function Lag(n: Numbers): nat
    requires Agree(n)
  {
    n.server - Tried(n)
  }

  class Device {
    var next: nat
    var signedReady: bool
    var receipt: Option<Receipt>
    var server: nat
    /** The numbers sent, in order. */
    ghost var sent: seq<nat>
    /** On a steady device nothing crashes, is lost or is rejected. */
    const steady: bool
    const generation: int

    constructor (next: nat, signedReady: bool, receipt: Option<Receipt>, server: nat, steady: bool, generation: int)
      requires Agree(Numbers(next, signedReady, receipt, server))
      ensures Now() == Numbers(next, signedReady, receipt, server) && this.steady == steady && Agree(Now())
      ensures this.generation == generation && sent == []
    {
      this.next, this.signedReady, this.receipt, this.server := next, signedReady, receipt, server;
      this.steady, this.generation, sent := steady, generation, [];
    }

    function Now(): Numbers
      reads this
    {
      Numbers(next, signedReady, receipt, server)
    }

    method Crashes() returns (crashes: bool)
      ensures steady ==> !crashes
    {
      crashes := *;
      crashes := crashes && !steady;
    }

    /** Keeps the request on disk, then sends it. Either half may fail, and an accepted request may still look lost. */
    method Request(r: Receipt) returns (reply: Reply)
      modifies this
      ensures next == old(next) && signedReady == old(signedReady)
      ensures receipt == old(receipt) || receipt == Some(r)
      ensures receipt != Some(r) ==> server == old(server) && reply == Broken
      ensures server == old(server) || (server == old(server) + 1 && r.sequence == old(server))
      ensures reply == Confirmed ==> receipt == Some(r) && r.sequence == old(server) && server == old(server) + 1
      ensures reply == OutOfOrder ==> receipt == Some(r) && r.sequence != old(server) && server == old(server)
      ensures steady ==> receipt == Some(r) && reply == if r.sequence == old(server) then Confirmed else OutOfOrder
      ensures sent in {old(sent), old(sent) + [r.sequence]}
      ensures reply != Broken || server != old(server) ==> sent == old(sent) + [r.sequence]
    {
      var unwritten := Crashes();
      if unwritten {
        return Broken;
      }
      receipt := Some(r);
      var undelivered := Crashes();
      if undelivered {
        return Broken;
      }
      sent := sent + [r.sequence];
      reply := OutOfOrder;
      if r.sequence == server {
        server := server + 1;
        reply := Confirmed;
      }
      var replyLost := Crashes();
      if replyLost {
        reply := Broken;
      }
    }

    method Sign(sequence: nat, now: int) returns (r: Receipt)
      ensures r == Receipt(sequence, now, generation)
    {
      r := Receipt(sequence, now, generation);
    }

    /** The pending request is less than four minutes old and of the device's present generation. */
    ghost predicate IsFresh(r: Receipt, now: int) {
      now < r.createdAt + 240_000 && r.generation == generation
    }

    /** The first request: the pending one while it is fresh and of this generation, else one signed anew for
        the same number; with nothing pending, the next number. A receipt below what is committed has to be the one
        committed last. */
    method FirstRequest(now: int) returns (r: Result<Receipt>)
      ensures r.Success? <==> (IsLeftover(Now()) ==> signedReady && receipt.value.sequence + 1 == next)
      ensures r.Success? ==>
        r.value == if IsPending(Now()) && IsFresh(receipt.value, now) then receipt.value
                   else Receipt(Tried(Now()), now, generation)
    {
      var signed := Sign(next, now);
      if receipt.None? {
        return Success(signed);
      }
      if receipt.value.sequence < next {
        if !signedReady || receipt.value.sequence + 1 != next {
          return Failure("pending_status_invalid");
        }
        return Success(signed);
      }
      if now - receipt.value.createdAt < RECEIPT_LIFETIME && receipt.value.generation == generation {
        return Success(receipt.value);
      }
      signed := Sign(receipt.value.sequence, now);
      return Success(signed);
    }

    /** Tries the neighbours of a number the server refused, lower one first, never below what is committed. */
    method TryNeighbours(refused: nat, now: int) returns (found: Option<nat>, broken: bool)
      requires Agree(Now()) && IsPending(Now()) && receipt.value.sequence == refused != server
      modifies this
      ensures next == old(next) && signedReady == old(signedReady) && IsPending(Now()) && server >= old(server)
      ensures found.Some? ==> receipt.value.sequence == found.value == old(server) && server == old(server) + 1
      ensures found.None? ==> Agree(Now())
      ensures found.None? && !broken ==> receipt.value.sequence == refused + 1 && server == old(server)
      ensures steady ==> !broken && (found.Some? <==> refused + 1 == old(server))
      ensures old(sent) <= sent
      ensures steady ==> sent == old(sent) + (if refused > next then [refused - 1] else []) + [refused + 1]
    {
      var candidates := (if refused - 1 >= next then [refused - 1] else []) + [refused + 1];
      var i := 0;
      found, broken := None, false;
      while i < |candidates|
        invariant i <= |candidates| && candidates[|candidates| - 1] == refused + 1
        invariant |candidates| == 2 ==> candidates[0] == refused - 1 >= next
        invariant 1 <= |candidates| <= 2
        invariant next == old(next) && signedReady == old(signedReady) && server == old(server)
        invariant IsPending(Now()) && receipt.value.sequence == (if i == 0 then refused else candidates[i - 1])
        invariant steady ==> forall j :: 0 <= j < i ==> candidates[j] != server
        invariant old(sent) <= sent && (steady ==> sent == old(sent) + candidates[..i])
      {
        var signed := Sign(candidates[i], now);
        var reply := Request(signed);
        match reply {
          case Confirmed => return Some(candidates[i]), false;
          case Broken => return None, true;
          case OutOfOrder =>
        }
        i := i + 1;
      }
    }

    /** One verification. Success means both sides agree on the next number. Without a pending receipt a refusal is
        final, unless the caller expects this number to have been accepted; but it leaves the receipt pending. */
    method Verify(expected: Option<nat>, now: int) returns (r: Result<()>)
      requires Agree(Now())
      modifies this
      ensures Agree(Now()) && next >= old(next) && server >= old(server)
      ensures r.Success? ==> next == server && next > old(next) && signedReady && !IsPending(Now())
      ensures steady && Lag(old(Now())) == 0 ==> r.Success? && next == old(Tried(Now())) + 1
      ensures steady && Lag(old(Now())) > 0 && !Searches(old(Now()), expected) ==>
        && r.Failure? && IsPending(Now()) && server == old(server) && next == old(next)
        && sent == old(sent) + [next] && Lag(Now()) == Lag(old(Now()))
      ensures steady && Lag(old(Now())) == 1 && Searches(old(Now()), expected) ==>
        r.Success? && next == old(server) + 1
      ensures steady && Lag(old(Now())) > 1 && Searches(old(Now()), expected) ==>
        && r.Failure? && IsPending(Now()) && server == old(server) && next == old(next)
        && Lag(Now()) == Lag(old(Now())) - 1
    {
      var hasPending := receipt.Some? && receipt.value.sequence >= next;
      var chosen := FirstRequest(now);
      var first := chosen.value;
      var accepted := first.sequence;
      var reply := Request(first);
      if reply == Broken {
        return Failure("request_failed");
      }
      if reply == OutOfOrder {
        if !hasPending && expected != Some(first.sequence) {
          return Failure("demo_fabric_sequence_out_of_order");
        }
        var found, broken := TryNeighbours(first.sequence, now);
        if found.None? {
          return Failure("demo_fabric_sequence_out_of_order");
        }
        accepted := found.value;
      }
      r := Commit(accepted);
    }

    /** A refused number's neighbours are tried: it was pending, or the caller expects it to have been accepted. */
    ghost predicate Searches(n: Numbers, expected: Option<nat>) {
      IsPending(n) || expected == Some(n.next)
    }

    /** Saves the number before anything else that may fail. */
    method Commit(accepted: nat) returns (r: Result<()>)
      requires IsPending(Now()) && 1 <= next && receipt.value.sequence == accepted && server == accepted + 1
      modifies this
      ensures Agree(Now()) && next >= old(next) && server == old(server)
      ensures next == old(next) ==> Now() == old(Now()) && r.Failure?
      ensures next != old(next) ==> next == accepted + 1 == server && signedReady && !IsPending(Now())
      ensures steady ==> r.Success? && receipt.None?
    {
      var mismatched := Crashes();
      if mismatched {
        return Failure("status_did_not_confirm");
      }
      signedReady, next := true, accepted + 1;
      var crashed := Crashes();
      if crashed {
        return Failure("crashed");
      }
      receipt := None;
      var updateRejected := Crashes();
      return if updateRejected then Failure("signing_update_rejected") else Success(());
    }

    /** Verifying again until it succeeds takes as many calls as the number lags, and at least one; and one more when
        the receipt was lost, which only leaves it pending again. */
    method VerifyUntilDone(now: int) returns (calls: nat)
      requires Agree(Now()) && steady
      modifies this
      ensures Agree(Now()) && next == server && !IsPending(Now())
      ensures calls == CallsNeeded(old(Now()))
    {
      calls := 0;
      var done := false;
      while !done
        invariant Agree(Now()) && (done ==> next == server && !IsPending(Now()))
        invariant calls + (if done then 0 else CallsNeeded(Now())) == CallsNeeded(old(Now()))
        decreases if done then 0 else 1 + CallsNeeded(Now())
      {
        var r := Verify(None, now);
        calls := calls + 1;
        done := r.Success?;
      }
    }
  }

  ghost function CallsNeeded(n: Numbers): nat
    requires Agree(n)
  {
    if Lag(n) == 0 then 1 else Lag(n) + if IsPending(n) then 0 else 1
  }
}
