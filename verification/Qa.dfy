/** The evidence gate of qa/adjudication.py. */
module Qa {
  import opened Prelude
  import opened Contracts
  import opened Registry

  datatype Status = QaPassed | Unverified | HumanRequired

  datatype Reason =
    | InvalidRound | RoundsExhausted | WrongCheckout | TestsChanged | CriteriaNotCovered
    | WaiverOffered | NoEvidence | ProvenanceRejected | Matched

  datatype Decision = Decision(status: Status, reason: Reason)

  /** What a review submits besides the identity of the task under review. */
  datatype Submission = Submission(evidence: seq<Evidence>, covered: seq<string>, testHashes: map<string, string>,
                                   tree: string, clean: bool, waiver: bool)

  /** How the gate compares what was covered with the frozen criteria: as sets, and by length. */
  predicate Compared(covered: seq<string>, criteria: seq<string>) {
    Elements(covered) == Elements(criteria) && |covered| == |criteria|
  }

  /** The checks that come before any evidence is looked at; Matched means none objects. */
  function Objection(criteria: seq<string>, pinned: map<string, string>, s: Submission, expectedTree: string,
                     fixRound: int): Reason
  {
    if fixRound < 0 then InvalidRound
    else if fixRound >= 3 then RoundsExhausted
    else if !s.clean || expectedTree == "" || s.tree != expectedTree then WrongCheckout
    else if pinned != s.testHashes then TestsChanged
    else if !Compared(s.covered, criteria) then CriteriaNotCovered
    else if s.waiver then WaiverOffered
    else if s.evidence == [] then NoEvidence
    else Matched
  }

  function Check(rec: Records, members: Members, criteria: seq<string>, pinned: map<string, string>, qa: Principal,
                 s: Submission, taskId: string, dispatchId: string, expectedTree: string, fixRound: int,
                 freshId: string)
    : (Records, Decision, Option<Verdict>)
  {
    var objection := Objection(criteria, pinned, s, expectedTree, fixRound);
    if objection != Matched then
      (rec, Decision(if objection == RoundsExhausted then HumanRequired else Unverified, objection), None)
    else
      match CreateVerdict(rec, members, qa, s.evidence, taskId, dispatchId, expectedTree, true, freshId)
      case Err(_) => (rec, Decision(Unverified, ProvenanceRejected), None)
      case Ok((after, verdict)) => (after, Decision(QaPassed, Matched), Some(verdict))
  }

  lemma {:induction false} ElementsBound(s: seq<string>)
    ensures |Elements(s)| <= |s|
    ensures |Elements(s)| == |s| ==> multiset(s) == multiset(Elements(s))
  {
    if s != [] {
      var rest := s[1..];
      ElementsBound(rest);
      assert s == [s[0]] + rest;
      assert Elements(s) == Elements(rest) + {s[0]};
    }
  }

  lemma {:induction false} DistinctSize(s: seq<string>)
    requires Distinct(s)
    ensures |Elements(s)| == |s|
  {
    if s != [] {
      var rest := s[1..];
      assert Distinct(rest) by { assert forall i | 0 <= i < |rest| :: rest[i] == s[i + 1]; }
      DistinctSize(rest);
      assert Elements(s) == Elements(rest) + {s[0]} by { assert s == [s[0]] + rest; }
      assert s[0] !in rest;
    }
  }

  lemma RearrangementsCompare(covered: seq<string>, criteria: seq<string>)
    requires multiset(covered) == multiset(criteria)
    ensures Compared(covered, criteria)
  {
    forall x ensures x in covered <==> x in criteria {
      assert x in multiset(covered) <==> x in multiset(criteria);
    }
    assert |multiset(covered)| == |covered| && |multiset(criteria)| == |criteria|;
  }

  /** Criteria for which the comparison cannot be misled: nothing named twice, or one thing only. */
  predicate Unambiguous(criteria: seq<string>) {
    Distinct(criteria) || |Elements(criteria)| <= 1
  }

  lemma {:induction false} OneElement(s: seq<string>, x: string)
    requires forall y | y in s :: y == x
    ensures multiset(s) == multiset{}[x := |s|]
  {
    if s != [] {
      assert forall y | y in s[1..] :: y in s;
      OneElement(s[1..], x);
      assert s == [s[0]] + s[1..] && s[0] in s;
    }
  }

  lemma UnambiguousComparison(criteria: seq<string>, covered: seq<string>)
    requires Unambiguous(criteria)
    ensures Compared(covered, criteria) <==> multiset(covered) == multiset(criteria)
  {
    if multiset(covered) == multiset(criteria) {
      RearrangementsCompare(covered, criteria);
    } else if Compared(covered, criteria) {
      if Distinct(criteria) {
        DistinctSize(criteria);
        ElementsBound(criteria);
        ElementsBound(covered);
      } else {
        SameSoleElement(criteria, covered);
      }
      assert false;
    }
  }

  lemma SameSoleElement(criteria: seq<string>, covered: seq<string>)
    requires |Elements(criteria)| <= 1 && criteria != [] && Compared(covered, criteria)
    ensures multiset(covered) == multiset(criteria)
  {
    var x := criteria[0];
    assert {x} <= Elements(criteria);
    forall y | y in Elements(criteria) ensures y == x {
      if y != x {
        Contained({x, y}, Elements(criteria));
        assert false;
      }
    }
    forall y | y in covered ensures y == x { assert y in Elements(covered); }
    forall y | y in criteria ensures y == x { assert y in Elements(criteria); }
    OneElement(criteria, x);
    OneElement(covered, x);
  }

  lemma Contained(a: set<string>, b: set<string>)
    requires a <= b
    ensures |a| <= |b|
  {
    assert |b - a| == |b| - |a|;
  }

  /**
   Ambiguous criteria: one copy of a repeated criterion given up for a second mention of another passes the
   comparison.
   */
  lemma Miscounted(criteria: seq<string>) returns (covered: seq<string>)
    requires !Unambiguous(criteria)
    ensures Compared(covered, criteria) && multiset(covered) != multiset(criteria)
  {
    var i, j :| 0 <= i < j < |criteria| && criteria[i] == criteria[j];
    var x := criteria[i];
    assert |Elements(criteria) - {x}| == |Elements(criteria)| - 1;
    var y :| y in Elements(criteria) - {x};
    covered := criteria[j := y];
    forall e ensures e in covered <==> e in criteria {
      if e in criteria {
        var k :| 0 <= k < |criteria| && criteria[k] == e;
        assert covered[if k == j then i else k] == e;
      }
    }
    assert multiset(covered)[y] == multiset(criteria)[y] + 1;
  }

  /** The comparison accepts only rearrangements of the frozen criteria if and only if the criteria are unambiguous. */
  lemma ComparisonExactIff(criteria: seq<string>)
    ensures (forall covered :: Compared(covered, criteria) ==> multiset(covered) == multiset(criteria))
            <==> Unambiguous(criteria)
  {
    if Unambiguous(criteria) {
      forall covered ensures Compared(covered, criteria) <==> multiset(covered) == multiset(criteria) {
        UnambiguousComparison(criteria, covered);
      }
    } else {
      var covered := Miscounted(criteria);
    }
  }

  /** Everything the gate asks for besides the criteria. */
  predicate OtherwiseInOrder(rec: Records, members: Members, pinned: map<string, string>, qa: Principal, s: Submission,
                             taskId: string, dispatchId: string, tree: string, fixRound: int)
  {
    && 0 <= fixRound < 3 && s.clean && tree != "" && s.tree == tree && s.testHashes == pinned && !s.waiver
    && VerdictAdmissible(rec, members, qa, s.evidence, taskId, dispatchId, tree)
  }

  /** When the gate passes: the whole chain of checks in one statement, over unambiguous criteria. */
  lemma PassesExactly(rec: Records, members: Members, criteria: seq<string>, pinned: map<string, string>, qa: Principal,
                      s: Submission, taskId: string, dispatchId: string, tree: string, fixRound: int, freshId: string)
    requires Unambiguous(criteria)
    ensures var (_, decision, verdict) := Check(rec, members, criteria, pinned, qa, s, taskId, dispatchId, tree,
                                                fixRound, freshId);
            && (decision.status == QaPassed <==> verdict.Some?)
            && (verdict.Some? <==>
                  && OtherwiseInOrder(rec, members, pinned, qa, s, taskId, dispatchId, tree, fixRound)
                  && multiset(s.covered) == multiset(criteria))
  {
    UnambiguousComparison(criteria, s.covered);
  }

  ghost predicate PassesWith(rec: Records, members: Members, criteria: seq<string>, pinned: map<string, string>,
                             qa: Principal, s: Submission, taskId: string, dispatchId: string, tree: string,
                             fixRound: int, freshId: string, covered: seq<string>)
  {
    Check(rec, members, criteria, pinned, qa, s.(covered := covered), taskId, dispatchId, tree, fixRound,
          freshId).1.status == QaPassed
  }

  /**
   The condition is exact for the gate itself: with everything else in order, it passes only reviews
   that cover a rearrangement of the frozen criteria if and only if the criteria are unambiguous.
   */
  lemma GateExactIff(rec: Records, members: Members, criteria: seq<string>, pinned: map<string, string>, qa: Principal,
                     s: Submission, taskId: string, dispatchId: string, tree: string, fixRound: int, freshId: string)
    requires OtherwiseInOrder(rec, members, pinned, qa, s, taskId, dispatchId, tree, fixRound)
    ensures (forall covered ::
               PassesWith(rec, members, criteria, pinned, qa, s, taskId, dispatchId, tree, fixRound, freshId, covered)
               ==> multiset(covered) == multiset(criteria))
            <==> Unambiguous(criteria)
  {
    ComparisonExactIff(criteria);
    forall covered
      ensures PassesWith(rec, members, criteria, pinned, qa, s, taskId, dispatchId, tree, fixRound, freshId, covered)
              <==> Compared(covered, criteria)
    {}
    if !Unambiguous(criteria) {
      var covered := Miscounted(criteria);
      assert PassesWith(rec, members, criteria, pinned, qa, s, taskId, dispatchId, tree, fixRound, freshId, covered);
    }
  }

  /**
   One such review: two of three frozen criteria are the same, the other one is covered twice instead, and the gate
   passes.
   */
  lemma MiscountedReviewPasses()
    ensures var qa := Principal("q", QA, 1);
            var evidence := Evidence("e", "r", "t", "d", "tree");
            var rec := Records(map["r" := Receipt("r", "x", "t", "d", "tree", 0)], map["e" := evidence], map[]);
            var s := Submission([evidence], ["a", "b", "b"], map["p" := "h"], "tree", true, false);
            && Check(rec, map["q" := (QA, 1)], ["a", "a", "b"], map["p" := "h"], qa, s, "t", "d", "tree", 0, "v").1
               == Decision(QaPassed, Matched)
            && multiset(s.covered) != multiset(["a", "a", "b"])
  {
    var x, y := ["a", "b", "b"], ["a", "a", "b"];
    assert x[0] == y[0] == "a" && x[1] == y[2] == "b";
    assert Elements(x) == Elements(y);
    assert multiset(x)["a"] == 1 && multiset(y)["a"] == 2;
  }

  class QaEvidenceGate {
    const receipts: ReceiptIssuerRegistry
    const criteria: seq<string>
    const testHashes: map<string, string>

    constructor (receipts: ReceiptIssuerRegistry, criteria: seq<string>, testHashes: map<string, string>)
      ensures this.receipts == receipts && this.criteria == criteria && this.testHashes == testHashes
    {
      this.receipts, this.criteria, this.testHashes := receipts, criteria, testHashes;
    }

    method CheckSubmission(qa: Principal, s: Submission, taskId: string, dispatchId: string, expectedTree: string,
                           fixRound: int, freshId: string) returns (d: Decision, v: Option<Verdict>)
      modifies receipts
      ensures (receipts.View(), d, v)
              == Check(old(receipts.View()), receipts.identities.members, criteria, testHashes, qa, s, taskId,
                       dispatchId,
                       expectedTree, fixRound, freshId)
    {
      var objection := Objection(criteria, testHashes, s, expectedTree, fixRound);
      if objection != Matched {
        return Decision(if objection == RoundsExhausted then HumanRequired else Unverified, objection), None;
      }
      var verdict := receipts.RecordVerdict(qa, s.evidence, taskId, dispatchId, expectedTree, true, freshId);
      if verdict.Err? {
        return Decision(Unverified, ProvenanceRejected), None;
      }
      return Decision(QaPassed, Matched), Some(verdict.value);
    }
  }
}
