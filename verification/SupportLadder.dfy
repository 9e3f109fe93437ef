// The evidence-gated support ladder: one transition, and what whole chains of transitions earn.
module SupportLadder {
  import opened Wrappers
  import Redaction

  datatype Status =
    | DECLARED_UNVERIFIED | CONFORMANCE_PARTIAL | CONFORMANCE_VERIFIED | PRODUCTION_CANDIDATE | PRODUCTION_CERTIFIED
    | BLOCKED | DEPRECATED
    | Unlisted(name: string)       // any other value

  datatype Item = Item(id: string, status: string)

  datatype Transition = Transition(allowed: bool, current: Status, target: Status, missing: seq<string>)

  datatype RegistryError = REGISTRY_INVALID

  // ----- One transition (federation-registry.mjs 39-52, 175-195, 257-269) -----

  function Ladder(): seq<Status> {
    [DECLARED_UNVERIFIED, CONFORMANCE_PARTIAL, CONFORMANCE_VERIFIED, PRODUCTION_CANDIDATE, PRODUCTION_CERTIFIED]
  }

  // PROMOTION_ORDER.indexOf
  function Rung(s: Status): int {
    match s
    case DECLARED_UNVERIFIED => 0
    case CONFORMANCE_PARTIAL => 1
    case CONFORMANCE_VERIFIED => 2
    case PRODUCTION_CANDIDATE => 3
    case PRODUCTION_CERTIFIED => 4
    case _ => -1
  }

  function Requirements(target: Status): seq<string> {
    match target
    case CONFORMANCE_PARTIAL => ["official_source", "headless_interface", "structured_output", "adapter_unit_tests"]
    case CONFORMANCE_VERIFIED => ["conformance_suite", "platform_matrix", "cancellation", "artifacts", "trace"]
    case PRODUCTION_CANDIDATE => ["security_review", "sandbox_or_worktree", "upgrade_rollback"]
    case PRODUCTION_CERTIFIED => ["external_maintainer_review", "operational_owner", "sla_boundary"]
    case _ => []
  }

  // The reason survives trim().
  predicate HasReason(reason: string) {
    exists i :: 0 <= i < |reason| && !Redaction.Space(reason[i])
  }

  predicate Verified(evidence: seq<Item>, id: string) {
    Item(id, "VERIFIED") in evidence
  }

  function Missing(evidence: seq<Item>, requirements: seq<string>): seq<string> {
    if requirements == [] then []
    else
      var last := requirements[|requirements| - 1];
      Missing(evidence, requirements[..|requirements| - 1]) + (if Verified(evidence, last) then [] else [last])
  }

  function Denied(current: Status, target: Status, missing: seq<string>): Transition {
    Transition(false, current, target, missing)
  }

  function VerifiedGate(current: Status, target: Status, evidence: seq<Item>, requirements: seq<string>): Transition {
    var missing := Missing(evidence, requirements);
    if missing == [] then Transition(true, current, target, []) else Denied(current, target, missing)
  }

  function EvaluateSupportTransition(
    current: Status, target: Status, evidence: seq<Item>, reason: string): Result<Transition, RegistryError>
  {
    if current.Unlisted? || target.Unlisted? then Err(REGISTRY_INVALID)
    else if current == target then Ok(Transition(true, current, target, []))
    else if target == BLOCKED then
      Ok(if HasReason(reason) then Transition(true, current, target, [])
        else Denied(current, target, ["blocking_reason"]))
    else if target == DEPRECATED then Ok(VerifiedGate(current, target, evidence, ["deprecation_notice"]))
    else if current == BLOCKED then
      Ok(if target != DECLARED_UNVERIFIED then Denied(current, target, ["blocked_remediation_to_declared_required"])
         else VerifiedGate(current, target, evidence, ["remediation_review"]))
    else if current == DEPRECATED then Ok(Denied(current, target, ["deprecated_status_is_terminal"]))
    else if Rung(target) != Rung(current) + 1 then Ok(Denied(current, target, ["adjacent_transition_required"]))
    else Ok(VerifiedGate(current, target, evidence, Requirements(target)))
  }

  // ----- What one transition decides -----

  predicate MeetsAll(evidence: seq<Item>, requirements: seq<string>) {
    forall k :: 0 <= k < |requirements| ==> Verified(evidence, requirements[k])
  }

  // The moves decided by evidence alone, and the evidence they ask for.
  function Asked(current: Status, target: Status): Option<seq<string>> {
    if current.Unlisted? || target.Unlisted? || current == target || target == BLOCKED then None
    else if target == DEPRECATED then Some(["deprecation_notice"])
    else if current == BLOCKED && target == DECLARED_UNVERIFIED then Some(["remediation_review"])
    else if 0 <= Rung(current) < 4 && Rung(target) == Rung(current) + 1 then Some(Requirements(target))
    else None
  }

  // The policy, stated without the order of the branches.
  predicate MayMove(current: Status, target: Status, evidence: seq<Item>, reason: string) {
    || current == target
    || (target == BLOCKED && HasReason(reason))
    || (Asked(current, target).Some? && MeetsAll(evidence, Asked(current, target).value))
  }

  predicate Allowed(current: Status, target: Status, evidence: seq<Item>, reason: string) {
    var r := EvaluateSupportTransition(current, target, evidence, reason);
    r.Ok? && r.value.allowed
  }

  lemma {:induction false} MissingIds(evidence: seq<Item>, requirements: seq<string>)
    ensures forall id :: id in Missing(evidence, requirements) <==> id in requirements && !Verified(evidence, id)
  {
    if requirements != [] {
      var init, last := requirements[..|requirements| - 1], requirements[|requirements| - 1];
      MissingIds(evidence, init);
      assert requirements == init + [last];
    }
  }

  lemma GateMeets(current: Status, target: Status, evidence: seq<Item>, requirements: seq<string>)
    ensures VerifiedGate(current, target, evidence, requirements).allowed <==> MeetsAll(evidence, requirements)
    ensures !VerifiedGate(current, target, evidence, requirements).allowed ==>
      VerifiedGate(current, target, evidence, requirements).missing == Missing(evidence, requirements) != []
    ensures var t := VerifiedGate(current, target, evidence, requirements);
      t.current == current && t.target == target && (t.allowed <==> t.missing == [])
  {
    MissingIds(evidence, requirements);
    var missing := Missing(evidence, requirements);
    if missing == [] {
      assert forall k :: 0 <= k < |requirements| ==> requirements[k] !in missing;
    } else {
      assert missing[0] in requirements;
    }
  }

  // The function implements the policy: an error exactly for unlisted values, otherwise a move is
  // allowed exactly when the policy says so and exactly when nothing is reported missing.
  lemma TransitionDecides(current: Status, target: Status, evidence: seq<Item>, reason: string)
    ensures var r := EvaluateSupportTransition(current, target, evidence, reason);
      && (r.Err? <==> current.Unlisted? || target.Unlisted?)
      && (r.Ok? ==> r.value.current == current && r.value.target == target
                    && (r.value.allowed <==> MayMove(current, target, evidence, reason))
                    && (r.value.allowed <==> r.value.missing == []))
  {
    hide VerifiedGate;
    hide MeetsAll;
    hide Missing;
    hide HasReason;
    hide Requirements;
    GateMeets(current, target, evidence, ["deprecation_notice"]);
    GateMeets(current, target, evidence, ["remediation_review"]);
    GateMeets(current, target, evidence, Requirements(target));
  }

  // More verified evidence never closes a gate.
  lemma GateIsMonotone(current: Status, target: Status, evidence: seq<Item>, more: seq<Item>, reason: string)
    requires forall id :: Verified(evidence, id) ==> Verified(more, id)
    ensures Allowed(current, target, evidence, reason) ==> Allowed(current, target, more, reason)
  {
    TransitionDecides(current, target, evidence, reason);
    TransitionDecides(current, target, more, reason);
    hide EvaluateSupportTransition;
    hide Verified;
    hide Asked;
  }

  lemma ReportsMissing(current: Status, target: Status, evidence: seq<Item>, reason: string)
    requires Asked(current, target).Some?
    ensures var r := EvaluateSupportTransition(current, target, evidence, reason);
      r.Ok? && r.value == VerifiedGate(current, target, evidence, Asked(current, target).value)
      && r.value.missing == Missing(evidence, Asked(current, target).value)
  {
    hide Missing;
    hide HasReason;
    hide Requirements;
  }

  // Every denial names its reason: the move itself, or each piece of evidence that is not verified.
  lemma DenialsNameTheirReason(current: Status, target: Status, evidence: seq<Item>, reason: string)
    requires !current.Unlisted? && !target.Unlisted? && !Allowed(current, target, evidence, reason)
    ensures var missing := EvaluateSupportTransition(current, target, evidence, reason).value.missing;
      && (target == BLOCKED ==> missing == ["blocking_reason"])
      && (current == BLOCKED && Rung(target) >= 1 ==> missing == ["blocked_remediation_to_declared_required"])
      && (current == DEPRECATED && Rung(target) >= 0 ==> missing == ["deprecated_status_is_terminal"])
      && (Rung(current) >= 0 && Rung(target) >= 0 && Rung(target) != Rung(current) + 1 ==>
           missing == ["adjacent_transition_required"])
      && (Asked(current, target).Some? ==>
           forall id :: id in missing <==> id in Asked(current, target).value && !Verified(evidence, id))
  {
    if Asked(current, target).Some? {
      ReportsMissing(current, target, evidence, reason);
      MissingIds(evidence, Asked(current, target).value);
    }
    hide VerifiedGate;
    hide Missing;
    hide HasReason;
    hide Requirements;
    hide Verified;
  }

  function AsVerified(ids: seq<string>): seq<Item> {
    seq(|ids|, k requires 0 <= k < |ids| => Item(ids[k], "VERIFIED"))
  }

  // Supplying exactly the ids a denial reported, as verified, opens the gate if and only if the
  // move is one that evidence decides.
  lemma RetryOpens(current: Status, target: Status, evidence: seq<Item>, reason: string)
    requires EvaluateSupportTransition(current, target, evidence, reason).Ok?
      && !Allowed(current, target, evidence, reason)
    ensures var missing := EvaluateSupportTransition(current, target, evidence, reason).value.missing;
      Allowed(current, target, evidence + AsVerified(missing), reason) <==> Asked(current, target).Some?
  {
    var missing := EvaluateSupportTransition(current, target, evidence, reason).value.missing;
    var more := evidence + AsVerified(missing);
    TransitionDecides(current, target, evidence, reason);
    TransitionDecides(current, target, more, reason);
    match Asked(current, target) {
      case Some(requirements) =>
        ReportsMissing(current, target, evidence, reason);
        SuppliedMeet(evidence, requirements);
      case None =>
    }
    hide EvaluateSupportTransition;
    hide MeetsAll;
    hide Requirements;
  }

  lemma SuppliedMeet(evidence: seq<Item>, requirements: seq<string>)
    ensures MeetsAll(evidence + AsVerified(Missing(evidence, requirements)), requirements)
  {
    MissingIds(evidence, requirements);
    var missing := Missing(evidence, requirements);
    var more := evidence + AsVerified(missing);
    forall k | 0 <= k < |requirements|
      ensures Verified(more, requirements[k])
    {
      if !Verified(evidence, requirements[k]) {
        var m :| 0 <= m < |missing| && missing[m] == requirements[k];
        assert more[|evidence| + m] == Item(requirements[k], "VERIFIED");
      }
    }
  }

  // ----- Chains -----

  datatype Step = Step(target: Status, evidence: seq<Item>, reason: string)

  function After(start: Status, steps: seq<Step>): Status {
    if steps == [] then start else steps[|steps| - 1].target
  }

  predicate Chain(start: Status, steps: seq<Step>) {
    forall i :: 0 <= i < |steps| ==>
      Allowed(After(start, steps[..i]), steps[i].target, steps[i].evidence, steps[i].reason)
  }

  // Step `i` enters rung `k` from the rung below, with every requirement verified.
  predicate Promotes(start: Status, steps: seq<Step>, i: nat, k: nat) {
    && i < |steps| && 1 <= k <= 4
    && After(start, steps[..i]) == Ladder()[k - 1] && steps[i].target == Ladder()[k]
    && MeetsAll(steps[i].evidence, Requirements(Ladder()[k]))
  }

  // Step `i` leaves BLOCKED for the bottom of the ladder, reviewed.
  predicate Remediates(start: Status, steps: seq<Step>, i: nat) {
    && i < |steps| && After(start, steps[..i]) == BLOCKED && steps[i].target == DECLARED_UNVERIFIED
    && Verified(steps[i].evidence, "remediation_review")
  }

  // The places where the rungs from..k were entered, in climbing order and after `floor`.
  ghost predicate Climb(start: Status, steps: seq<Step>, from: nat, k: nat, entries: seq<nat>, floor: int) {
    && from <= k <= 4 && |entries| == k - from
    && (forall j :: 0 <= j < |entries| ==> Promotes(start, steps, entries[j], from + 1 + j) && floor < entries[j])
    && (forall i, j :: 0 <= i < j < |entries| ==> entries[i] < entries[j])
  }

  lemma PrefixPlaces(start: Status, steps: seq<Step>, i: nat, k: nat)
    requires steps != [] && i < |steps| - 1
    ensures Promotes(start, steps[..|steps| - 1], i, k) <==> Promotes(start, steps, i, k)
    ensures Remediates(start, steps[..|steps| - 1], i) <==> Remediates(start, steps, i)
  {
    assert steps[..|steps| - 1][..i] == steps[..i];
  }

  lemma ChainStep(start: Status, steps: seq<Step>)
    requires Chain(start, steps) && steps != []
    ensures var init, last := steps[..|steps| - 1], steps[|steps| - 1];
      Chain(start, init) && Allowed(After(start, init), last.target, last.evidence, last.reason)
  {
    var n := |steps| - 1;
    assert forall i :: 0 <= i < n ==> steps[..n][..i] == steps[..i];
    hide Allowed;
  }

  // The only moves onto a rung: staying, climbing one rung on its evidence, or a reviewed
  // remediation.
  lemma MovesOntoRung(current: Status, target: Status, evidence: seq<Item>, reason: string)
    requires Allowed(current, target, evidence, reason) && Rung(target) >= 0
    ensures || current == target
            || (Rung(current) == Rung(target) - 1 >= 0 && MeetsAll(evidence, Requirements(target)))
            || (current == BLOCKED && target == DECLARED_UNVERIFIED && Verified(evidence, "remediation_review"))
  {
    TransitionDecides(current, target, evidence, reason);
    hide EvaluateSupportTransition;
    hide HasReason;
    hide Requirements;
    hide Verified;
    assert ["remediation_review"][0] == "remediation_review";
  }

  // The same for the last step of a chain.
  lemma LastStep(start: Status, steps: seq<Step>)
    requires Chain(start, steps) && steps != [] && Rung(After(start, steps)) >= 0
    ensures var init, k := steps[..|steps| - 1], Rung(After(start, steps));
      && Chain(start, init)
      && (|| After(start, init) == After(start, steps)
          || (Rung(After(start, init)) == k - 1 >= 0 && Promotes(start, steps, |steps| - 1, k))
          || (k == 0 && Remediates(start, steps, |steps| - 1)))
  {
    hide Allowed;
    hide Chain;
    hide Requirements;
    hide Verified;
    hide MeetsAll;
    ChainStep(start, steps);
    var init, last := steps[..|steps| - 1], steps[|steps| - 1];
    MovesOntoRung(After(start, init), last.target, last.evidence, last.reason);
  }

  lemma ClimbExtends(start: Status, steps: seq<Step>, from: nat, k: nat, entries: seq<nat>, floor: int)
    requires steps != [] && Climb(start, steps[..|steps| - 1], from, k, entries, floor)
    ensures Climb(start, steps, from, k, entries, floor)
    ensures forall j :: 0 <= j < |entries| ==> entries[j] < |steps| - 1
  {
    forall j | 0 <= j < |entries|
      ensures entries[j] < |steps| - 1 && Promotes(start, steps, entries[j], from + 1 + j)
    {
      assert Promotes(start, steps[..|steps| - 1], entries[j], from + 1 + j);
      PrefixPlaces(start, steps, entries[j], from + 1 + j);
    }
    hide Promotes;
  }

  lemma ClimbRises(start: Status, steps: seq<Step>, from: nat, k: nat, entries: seq<nat>, floor: int)
    requires steps != [] && Climb(start, steps[..|steps| - 1], from, k, entries, floor) && floor < |steps| - 1
    requires Promotes(start, steps, |steps| - 1, k + 1)
    ensures Climb(start, steps, from, k + 1, entries + [|steps| - 1], floor)
  {
    ClimbExtends(start, steps, from, k, entries, floor);
    assert k + 1 <= 4;
    hide Promotes;
  }

  // Earned promotion, in full: a chain that stands on rung k either began on some rung and never
  // left the ladder since, or was last put on it by a reviewed remediation; and every rung above
  // that one was entered, in order, at a step whose evidence verified all its requirements.
  lemma {:induction false} EarnedPromotion(start: Status, steps: seq<Step>)
    returns (base: Option<nat>, entries: seq<nat>)
    requires Chain(start, steps) && Rung(After(start, steps)) >= 0
    ensures base.None? ==>
      Rung(start) >= 0 && Climb(start, steps, Rung(start), Rung(After(start, steps)), entries, -1)
    ensures base.Some? ==>
      Remediates(start, steps, base.value) && Climb(start, steps, 0, Rung(After(start, steps)), entries, base.value)
    decreases |steps|
  {
    hide Climb;
    hide Chain;
    hide Promotes;
    if steps == [] {
      base, entries := None, [];
      NoClimb(start, steps, Rung(start), -1);
      return;
    }
    var n := |steps| - 1;
    var init, k := steps[..n], Rung(After(start, steps));
    LastStep(start, steps);
    if After(start, init) != After(start, steps) && k == 0 {
      base, entries := Some(n), [];
      NoClimb(start, steps, 0, n);
      return;
    }
    base, entries := EarnedPromotion(start, init);
    var from, floor := if base.Some? then 0 else Rung(start), if base.Some? then base.value else -1;
    if base.Some? {
      assert base.value < |init|;
      PrefixPlaces(start, steps, base.value, 0);
    }
    if After(start, init) == After(start, steps) {
      ClimbExtends(start, steps, from, k, entries, floor);
    } else {
      ClimbRises(start, steps, from, k - 1, entries, floor);
      entries := entries + [n];
    }
    hide Remediates;
  }

  lemma NoClimb(start: Status, steps: seq<Step>, k: nat, floor: int)
    requires k <= 4
    ensures Climb(start, steps, k, k, [], floor)
  {
  }

  // From DECLARED_UNVERIFIED, every rung up to the present one was entered with its evidence.
  lemma DeclaredEarnsEveryRung(steps: seq<Step>, j: nat)
    requires Chain(DECLARED_UNVERIFIED, steps) && 1 <= j <= Rung(After(DECLARED_UNVERIFIED, steps))
    ensures exists i: nat :: Promotes(DECLARED_UNVERIFIED, steps, i, j)
  {
    var base, entries := EarnedPromotion(DECLARED_UNVERIFIED, steps);
    assert Promotes(DECLARED_UNVERIFIED, steps, entries[j - 1], j);
  }

  // From BLOCKED or DEPRECATED, a promoted rung is reached only through a reviewed remediation,
  // and every rung is entered with its evidence after it.
  lemma BlockedStartsOver(start: Status, steps: seq<Step>) returns (review: nat, entries: seq<nat>)
    requires (start == BLOCKED || start == DEPRECATED) && Chain(start, steps) && Rung(After(start, steps)) >= 0
    ensures Remediates(start, steps, review)
    ensures Climb(start, steps, 0, Rung(After(start, steps)), entries, review)
  {
    var base, all := EarnedPromotion(start, steps);
    review, entries := base.value, all;
  }

  // ----- DEPRECATED -----

  predicate Targets(steps: seq<Step>, status: Status) {
    exists i :: 0 <= i < |steps| && steps[i].target == status
  }

  predicate Stays(steps: seq<Step>, status: Status) {
    forall i :: 0 <= i < |steps| ==> steps[i].target == status
  }

  lemma TargetsLast(steps: seq<Step>, status: Status)
    requires steps != []
    ensures var init, last := steps[..|steps| - 1], steps[|steps| - 1];
      && (Targets(init, status) || last.target == status ==> Targets(steps, status))
      && (Stays(init, status) && last.target == status ==> Stays(steps, status))
  {
    var n := |steps| - 1;
    if i :| 0 <= i < n && steps[..n][i].target == status {
      assert steps[i].target == status;
    }
    if Stays(steps[..n], status) && steps[n].target == status {
      forall i | 0 <= i < |steps|
        ensures steps[i].target == status
      {
        assert i < n ==> steps[..n][i] == steps[i];
      }
    }
  }

  lemma {:induction false} DeprecatedUntilBlocked(steps: seq<Step>)
    requires Chain(DEPRECATED, steps) && !Targets(steps, BLOCKED)
    ensures Stays(steps, DEPRECATED) && After(DEPRECATED, steps) == DEPRECATED
    decreases |steps|
  {
    if steps != [] {
      ChainStep(DEPRECATED, steps);
      TargetsLast(steps, BLOCKED);
      TargetsLast(steps, DEPRECATED);
      hide Allowed;
      hide Chain;
      hide Targets;
      hide Stays;
      var n := |steps| - 1;
      DeprecatedUntilBlocked(steps[..n]);
      DeprecatedStep(steps[n].target, steps[n].evidence, steps[n].reason);
    }
  }

  // "Terminal" holds of exactly the chains that never block: a chain leaves DEPRECATED if and
  // only if some step targets BLOCKED.
  lemma DeprecatedLeavesByBlocking(steps: seq<Step>)
    requires Chain(DEPRECATED, steps)
    ensures !Stays(steps, DEPRECATED) <==> Targets(steps, BLOCKED)
  {
    hide Chain;
    if !Targets(steps, BLOCKED) {
      DeprecatedUntilBlocked(steps);
    }
  }

  lemma DeprecatedStep(target: Status, evidence: seq<Item>, reason: string)
    requires Allowed(DEPRECATED, target, evidence, reason)
    ensures target == DEPRECATED || target == BLOCKED
  {
    hide HasReason;
    hide VerifiedGate;
  }

  // Such chains exist: a deprecated harness can be declared again.
  lemma DeprecatedCanReturn()
    ensures exists steps :: Chain(DEPRECATED, steps) && After(DEPRECATED, steps) == DECLARED_UNVERIFIED
  {
    var block := Step(BLOCKED, [], "r");
    var review := Step(DECLARED_UNVERIFIED, [Item("remediation_review", "VERIFIED")], "");
    var steps := [block, review];
    assert steps[..0] == [] && steps[..1] == [block];
    assert HasReason("r") by {
      assert !Redaction.Space("r"[0]);
    }
    TransitionDecides(DEPRECATED, BLOCKED, [], "r");
    TransitionDecides(BLOCKED, DECLARED_UNVERIFIED, review.evidence, "");
    assert MeetsAll(review.evidence, ["remediation_review"]) by {
      assert review.evidence[0] == Item("remediation_review", "VERIFIED");
    }
    assert Allowed(DEPRECATED, BLOCKED, [], "r") && Allowed(BLOCKED, DECLARED_UNVERIFIED, review.evidence, "");
    hide Allowed;
    assert Chain(DEPRECATED, steps);
  }
}
