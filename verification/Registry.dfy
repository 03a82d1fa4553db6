/** Identities, receipts, evidence and verdicts: domain/registry.py. */
module Registry {
  import opened Prelude
  import opened Contracts

  /** `secret` is the random token handed out at registration. */
  datatype Principal = Principal(principalId: string, role: Role, secret: nat)

  type Members = map<string, (Role, nat)>

  datatype Receipt = Receipt(receiptId: string, issuerId: string, taskId: string, dispatchId: string, treeSha: string,
                             exitCode: int)

  datatype Verdict = Verdict(verdictId: string, qaPrincipalId: string, taskId: string, dispatchId: string,
                             treeSha: string, receiptIds: seq<string>, accepted: bool)

  datatype Records = Records(receipts: map<string, Receipt>, evidence: map<string, Evidence>,
                             verdicts: map<string, Verdict>)

  /** `IdentityRegistry.require`: the registered role, the claimed role and the secret must all agree. */
  predicate Holds(members: Members, p: Principal, role: Role) {
    p.principalId in members && members[p.principalId] == (role, p.secret) && p.role == role
  }

  predicate ReceiptBinds(r: Receipt, taskId: string, dispatchId: string, treeSha: string) {
    (r.taskId, r.dispatchId, r.treeSha) == (taskId, dispatchId, treeSha)
  }

  predicate EvidenceBinds(e: Evidence, taskId: string, dispatchId: string, treeSha: string) {
    (e.taskId, e.dispatchId, e.treeSha) == (taskId, dispatchId, treeSha)
  }

  /** One evidence item as the verdict sees it: registered unaltered, bound, and backed by a passing receipt. */
  predicate EvidenceOk(rec: Records, e: Evidence, taskId: string, dispatchId: string, treeSha: string) {
    && e.evidenceId in rec.evidence && rec.evidence[e.evidenceId] == e
    && EvidenceBinds(e, taskId, dispatchId, treeSha)
    && e.receiptId in rec.receipts
    && ReceiptBinds(rec.receipts[e.receiptId], taskId, dispatchId, treeSha)
    && rec.receipts[e.receiptId].exitCode == 0
  }

  predicate DistinctEvidence(evidence: seq<Evidence>) {
    forall i, j | 0 <= i < j < |evidence| :: evidence[i].evidenceId != evidence[j].evidenceId
  }

  function ReceiptIds(evidence: seq<Evidence>): (ids: seq<string>)
    ensures |ids| == |evidence| && forall i | 0 <= i < |ids| :: ids[i] == evidence[i].receiptId
  {
    if evidence == [] then [] else [evidence[0].receiptId] + ReceiptIds(evidence[1..])
  }

  function Issue(rec: Records, members: Members, executor: Principal, taskId: string, dispatchId: string,
                 treeSha: string, exitCode: int, freshId: string): Result<(Records, Receipt), Fault>
  {
    if !Holds(members, executor, EXECUTOR) then Err(NotAuthorized)
    else if taskId == "" || dispatchId == "" || treeSha == "" then Err(InvalidValue)
    else
      var receipt := Receipt(freshId, executor.principalId, taskId, dispatchId, treeSha, exitCode);
      Ok((rec.(receipts := rec.receipts[freshId := receipt]), receipt))
  }

  function CreateEvidence(rec: Records, receiptId: string, taskId: string, dispatchId: string, treeSha: string,
                          freshId: string): Result<(Records, Evidence), Fault>
  {
    if receiptId !in rec.receipts then Err(NotAuthorized)
    else if !ReceiptBinds(rec.receipts[receiptId], taskId, dispatchId, treeSha) then Err(NotAuthorized)
    else if rec.receipts[receiptId].exitCode != 0 then Err(NotAuthorized)
    else
      var evidence := Evidence(freshId, receiptId, taskId, dispatchId, treeSha);
      Ok((rec.(evidence := rec.evidence[freshId := evidence]), evidence))
  }

  predicate VerdictAdmissible(rec: Records, members: Members, qa: Principal, evidence: seq<Evidence>,
                              taskId: string, dispatchId: string, treeSha: string)
  {
    && Holds(members, qa, QA) && evidence != [] && DistinctEvidence(evidence)
    && forall i | 0 <= i < |evidence| :: EvidenceOk(rec, evidence[i], taskId, dispatchId, treeSha)
  }

  function CreateVerdict(rec: Records, members: Members, qa: Principal, evidence: seq<Evidence>, taskId: string,
                         dispatchId: string, treeSha: string, accepted: bool,
                           freshId: string): Result<(Records, Verdict), Fault>
  {
    if !VerdictAdmissible(rec, members, qa, evidence, taskId, dispatchId, treeSha) then Err(NotAuthorized)
    else
      var verdict := Verdict(freshId, qa.principalId, taskId, dispatchId, treeSha, ReceiptIds(evidence), accepted);
      Ok((rec.(verdicts := rec.verdicts[freshId := verdict]), verdict))
  }

  /** `require_verdict`: registered unaltered, bound, accepted, and with receipts behind it. */
  predicate VerdictStands(rec: Records, v: Verdict, taskId: string, dispatchId: string, treeSha: string) {
    && v.verdictId in rec.verdicts && rec.verdicts[v.verdictId] == v
    && (v.taskId, v.dispatchId, v.treeSha) == (taskId, dispatchId, treeSha)
    && v.accepted
    && v.receiptIds != [] && forall i | i in v.receiptIds :: i in rec.receipts
  }

  class IdentityRegistry {
    var members: Members

    constructor ()
      ensures members == map[]
    {
      members := map[];
    }

    method Register(principalId: string, role: Role, secret: nat) returns (r: Result<Principal, Fault>)
      modifies this
      ensures principalId == "" || principalId in old(members) ==> r == Err(InvalidValue) && members == old(members)
      ensures principalId != "" && principalId !in old(members) ==>
                && r == Ok(Principal(principalId, role, secret))
                  && members == old(members)[principalId := (role, secret)]
                && (forall p: Principal, other | p.principalId == principalId ::
                      Holds(members, p, other) <==> p == r.value && other == role)
    {
      if principalId == "" || principalId in members {
        return Err(InvalidValue);
      }
      members := members[principalId := (role, secret)];
      r := Ok(Principal(principalId, role, secret));
    }
  }

  class ReceiptIssuerRegistry {
    const identities: IdentityRegistry
    var receipts: map<string, Receipt>
    var evidence: map<string, Evidence>
    var verdicts: map<string, Verdict>

    function View(): Records
      reads this
    {
      Records(receipts, evidence, verdicts)
    }

    constructor (identities: IdentityRegistry)
      ensures this.identities == identities && View() == Records(map[], map[], map[])
    {
      this.identities := identities;
      receipts, evidence, verdicts := map[], map[], map[];
    }

    method IssueReceipt(executor: Principal, taskId: string, dispatchId: string, treeSha: string, exitCode: int,
                        freshId: string)
      returns (r: Result<Receipt, Fault>)
      modifies this
      ensures match Issue(old(View()), identities.members, executor, taskId, dispatchId, treeSha, exitCode, freshId)
              case Ok((rec, receipt)) => View() == rec && r == Ok(receipt)
              case Err(e) => View() == old(View()) && r == Err(e)
    {
      if !Holds(identities.members, executor, EXECUTOR) {
        return Err(NotAuthorized);
      }
      if taskId == "" || dispatchId == "" || treeSha == "" {
        return Err(InvalidValue);
      }
      var receipt := Receipt(freshId, executor.principalId, taskId, dispatchId, treeSha, exitCode);
      receipts := receipts[freshId := receipt];
      r := Ok(receipt);
    }

    method RecordEvidence(receiptId: string, taskId: string, dispatchId: string, treeSha: string, freshId: string)
      returns (r: Result<Evidence, Fault>)
      modifies this
      ensures match CreateEvidence(old(View()), receiptId, taskId, dispatchId, treeSha, freshId)
              case Ok((rec, item)) => View() == rec && r == Ok(item)
              case Err(e) => View() == old(View()) && r == Err(e)
    {
      if receiptId !in receipts || !ReceiptBinds(receipts[receiptId], taskId, dispatchId, treeSha)
         || receipts[receiptId].exitCode != 0 {
        return Err(NotAuthorized);
      }
      var item := Evidence(freshId, receiptId, taskId, dispatchId, treeSha);
      evidence := evidence[freshId := item];
      r := Ok(item);
    }

    method RecordVerdict(qa: Principal, items: seq<Evidence>, taskId: string, dispatchId: string, treeSha: string,
                         accepted: bool, freshId: string) returns (r: Result<Verdict, Fault>)
      modifies this
      ensures match CreateVerdict(old(View()), identities.members, qa, items, taskId, dispatchId, treeSha, accepted,
                                  freshId)
              case Ok((rec, verdict)) => View() == rec && r == Ok(verdict)
              case Err(e) => View() == old(View()) && r == Err(e)
    {
      if !Holds(identities.members, qa, QA) || items == [] {
        return Err(NotAuthorized);
      }
      var seen: set<string> := {};
      for i := 0 to |items|
        invariant forall k | 0 <= k < i :: items[k].evidenceId in seen
        invariant forall id | id in seen :: exists k | 0 <= k < i :: items[k].evidenceId == id
        invariant forall j, k | 0 <= j < k < i :: items[j].evidenceId != items[k].evidenceId
      {
        if items[i].evidenceId in seen {
          return Err(NotAuthorized);
        }
        seen := seen + {items[i].evidenceId};
      }
      var ids: seq<string> := [];
      for i := 0 to |items|
        invariant |ids| == i && forall k | 0 <= k < i :: ids[k] == items[k].receiptId
        invariant forall k | 0 <= k < i :: EvidenceOk(View(), items[k], taskId, dispatchId, treeSha)
        invariant View() == old(View())
      {
        if !EvidenceOk(View(), items[i], taskId, dispatchId, treeSha) {
          return Err(NotAuthorized);
        }
        ids := ids + [items[i].receiptId];
      }
      assert ids == ReceiptIds(items);
      var verdict := Verdict(freshId, qa.principalId, taskId, dispatchId, treeSha, ids, accepted);
      verdicts := verdicts[freshId := verdict];
      r := Ok(verdict);
    }
  }
}
