/** How the status of a build moves, step by step and over whole runs. */
module Statuses {
  import opened Ledger
  import opened Lifecycle
  import opened Settlement
  import opened SettlementExact

  /** The moves that some step makes, with the step that makes them. */
  predicate Moves(from: Status, to: Status, op: Op, b: BuildId) {
    match op
    case Attempt(x, succeeds) => x == b && succeeds && from == QUEUED && to == REVIEW
    case Approve(x, _, _) => x == b && from == REVIEW && to == LIVE
    case Cancel(x, _, _) => x == b && !Terminal(from) && to == CANCELLED
    case Delete(x, _, _) => x == b && !Terminal(from) && to == CANCELLED
    case TimeOut(x) => x == b && from !in {FAILED, CANCELLED} && to == FAILED
    case _ => false
  }

  lemma StatusMoves(w: World, op: Op, b: BuildId)
    requires b in w.builds
    ensures b in Next(w, op).builds
    ensures var row, row' := w.builds[b], Next(w, op).builds[b];
      && (row'.status == row.status || Moves(row.status, row'.status, op, b))
      && (row.deleted ==> row' == row)
      && (row'.deleted && !row.deleted ==> op.Delete? && op.build == b && Terminal(row'.status))
  {
  }

  /** In every reachable world an owner's approval succeeds exactly in REVIEW: the ledger
      never refuses the capture, whether it books one or finds it booked. */
  lemma ApprovalsAreExact(tenants: map<TenantId, OrgId>, ops: seq<Op>, b: BuildId, tenant: TenantId, org: OrgId)
    requires Owned(RunOps(Fresh(tenants), ops), b, tenant, org)
    ensures var w := RunOps(Fresh(tenants), ops);
      var (w', reply) := OpStep(w, Approve(b, tenant, org));
      && (reply == Done <==> w.builds[b].status == REVIEW)
      && (reply == Done ==> w'.builds[b].status == LIVE && HasKey(w'.bank.txns, CaptureKey(b)))
  {
    var w := RunOps(Fresh(tenants), ops);
    FreshInv(tenants);
    RunInv(Fresh(tenants), ops);
    if w.builds[b].status == REVIEW {
      ApproveIsDone(w, b, tenant, org);
      NewKeys(w, Approve(b, tenant, org), b);
    }
  }

  lemma ApproveIsDone(w: World, b: BuildId, tenant: TenantId, org: OrgId)
    requires Inv(w) && Owned(w, b, tenant, org) && w.builds[b].status == REVIEW
    ensures OpStep(w, Approve(b, tenant, org)).1 == Done
    ensures Next(w, Approve(b, tenant, org)).builds[b].status == LIVE
  {
    MovesCost(w, b);
  }

  /** In a guarded run a terminal status is final, whatever the owners and the worker do. */
  lemma {:induction false} TerminalIsFinal(w: World, ops: seq<Op>, b: BuildId)
    requires Guarded(w, ops) && b in w.builds && Terminal(w.builds[b].status)
    ensures b in RunOps(w, ops).builds && RunOps(w, ops).builds[b].status == w.builds[b].status
    decreases ops
  {
    if ops == [] {
    } else {
      StatusMoves(w, ops[0], b);
      TerminalIsFinal(Next(w, ops[0]), ops[1..], b);
    }
  }

  lemma QueuedWhenAdded(w: World, op: Op, b: BuildId)
    requires b !in w.builds && b in Next(w, op).builds
    ensures Next(w, op).builds[b].status == QUEUED
  {
  }

  /** Every build that is LIVE was approved while it was in REVIEW. */
  lemma {:induction false} LiveWasApproved(w: World, ops: seq<Op>, b: BuildId) returns (i: nat)
    requires b in w.builds ==> w.builds[b].status != LIVE
    requires b in RunOps(w, ops).builds && RunOps(w, ops).builds[b].status == LIVE
    ensures i < |ops| && ops[i].Approve? && ops[i].build == b
    ensures b in RunOps(w, ops[..i]).builds && RunOps(w, ops[..i]).builds[b].status == REVIEW
    decreases ops
  {
    var mid := Next(w, ops[0]);
    if b in w.builds {
      StatusMoves(w, ops[0], b);
    }
    if b in mid.builds && mid.builds[b].status == LIVE {
      if b !in w.builds {
        QueuedWhenAdded(w, ops[0], b);
        assert false;
      }
      i := 0;
      assert RunOps(w, ops[..0]) == w;
    } else {
      var j := LiveWasApproved(mid, ops[1..], b);
      i := j + 1;
      assert ops[..i][1..] == ops[1..][..j];
    }
  }
}
