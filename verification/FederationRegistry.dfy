// The validated registry document, its lookup index, and the passport check.
module FederationRegistry {
  import opened Wrappers
  import opened SupportLadder

  datatype Harness = Harness(
    id: string, name: string, support: Status, deployment: string,
    defaultCapability: Option<string>, capabilities: seq<string>, readiness: Option<string>)

  // `harnesses` and `requiredEvidence` are None when they are not arrays.
  datatype Document = Document(
    schemaVersion: string, runtimeImplemented: bool, harnesses: Option<seq<Harness>>,
    requiredEvidence: Option<seq<string>>, auxiliary: seq<Harness>)

  const SCHEMA_VERSION := "0.3.0-alpha.1"

  predicate LocalDeployment(s: string) {
    s in [
      "NOT_PROBED", "NOT_DISCOVERED", "DISCOVERED", "AUTH_REQUIRED", "AUTHENTICATED", "HEALTHY", "UNHEALTHY", "BLOCKED"]
  }

  predicate CapabilityState(s: string) {
    s in ["SUPPORTED", "LIMITED", "UNSUPPORTED", "UNKNOWN"]
  }

  predicate EvidenceState(s: string) {
    s in ["VERIFIED", "LIMITED", "NOT_OBSERVED", "UNSUPPORTED", "FAILED", "NOT_APPLICABLE"]
  }

  predicate ReadinessState(s: string) {
    s in ["NOT_READY", "HUMAN_BRIDGED", "LIMITED_AUTONOMOUS", "NATIVE_AUTONOMOUS"]
  }

  // ----- A valid document -----

  predicate WellFormed(h: Harness) {
    && h.id != "" && h.name != "" && !h.support.Unlisted? && LocalDeployment(h.deployment)
    && (h.defaultCapability.Some? ==> CapabilityState(h.defaultCapability.value))
    && (forall k :: 0 <= k < |h.capabilities| ==> CapabilityState(h.capabilities[k]))
  }

  // No two entries share an id or share a name, in any case.
  predicate Distinct(entries: seq<Harness>, upper: string -> string) {
    forall i, j :: 0 <= i < j < |entries| ==>
      upper(entries[i].id) != upper(entries[j].id) && upper(entries[i].name) != upper(entries[j].name)
  }

  function FirstClassIds(): seq<string> {
    ["H01", "H02", "H03", "H04", "H05", "H06", "H07", "H08"]
  }

  function FirstClassId(i: nat): string
    requires 1 <= i <= 8
  {
    FirstClassIds()[i - 1]
  }

  predicate Lists(harnesses: seq<Harness>, id: string) {
    exists k :: 0 <= k < |harnesses| && harnesses[k].id == id
  }

  ghost predicate ValidDocument(document: Document, upper: string -> string) {
    && document.schemaVersion == SCHEMA_VERSION && document.runtimeImplemented
    && document.harnesses.Some? && |document.harnesses.value| == 8
    && document.requiredEvidence.Some? && document.requiredEvidence.value != []
    && (forall k :: 0 <= k < |document.harnesses.value + document.auxiliary| ==>
      WellFormed((document.harnesses.value + document.auxiliary)[k]))
    && Distinct(document.harnesses.value + document.auxiliary, upper)
    && (forall i :: 1 <= i <= 8 ==> Lists(document.harnesses.value, FirstClassId(i)))
  }

  // The capability loop (219-221).
  method CheckCapabilities(capabilities: seq<string>) returns (ok: bool)
    ensures ok <==> forall k :: 0 <= k < |capabilities| ==> CapabilityState(capabilities[k])
  {
    for i := 0 to |capabilities|
      invariant forall k :: 0 <= k < i ==> CapabilityState(capabilities[k])
    {
      if !CapabilityState(capabilities[i]) {
        return false;
      }
    }
    return true;
  }

  // 214-221
  method CheckStates(harness: Harness) returns (ok: bool)
    requires harness.id != "" && harness.name != ""
    ensures ok <==> WellFormed(harness)
  {
    if harness.support.Unlisted? || !LocalDeployment(harness.deployment) {
      return false;
    }
    if harness.defaultCapability.Some? && !CapabilityState(harness.defaultCapability.value) {
      return false;
    }
    ok := CheckCapabilities(harness.capabilities);
  }

  // `keys` holds the folded ids and names of the entries.
  ghost predicate Keys(ids: set<string>, names: set<string>, entries: seq<Harness>, upper: string -> string) {
    && (forall id :: id in ids <==> exists k :: 0 <= k < |entries| && upper(entries[k].id) == id)
    && (forall name :: name in names <==> exists k :: 0 <= k < |entries| && upper(entries[k].name) == name)
  }

  lemma KeysGrow(ids: set<string>, names: set<string>, entries: seq<Harness>, last: Harness, upper: string -> string)
    requires Keys(ids, names, entries, upper)
    ensures Keys(ids + {upper(last.id)}, names + {upper(last.name)}, entries + [last], upper)
    ensures Distinct(entries + [last], upper) <==>
      Distinct(entries, upper) && upper(last.id) !in ids && upper(last.name) !in names
  {
    var all, n := entries + [last], |entries|;
    assert all[n] == last && forall k :: 0 <= k < n ==> all[k] == entries[k];
    if Distinct(all, upper) {
      assert forall k :: 0 <= k < n ==>
        upper(all[k].id) != upper(all[n].id) && upper(all[k].name) != upper(all[n].name);
    }
  }

  lemma PrefixDistinct(entries: seq<Harness>, i: nat, upper: string -> string)
    requires i <= |entries| && Distinct(entries, upper)
    ensures Distinct(entries[..i], upper)
  {
  }

  // The entry loop (204-222), with its two sets.
  method CheckEntries(entries: seq<Harness>, upper: string -> string) returns (ok: bool)
    ensures ok <==> (forall k :: 0 <= k < |entries| ==> WellFormed(entries[k])) && Distinct(entries, upper)
  {
    hide WellFormed;
    hide Distinct;
    hide Keys;
    var ids: set<string> := {};
    var names: set<string> := {};
    assert Keys(ids, names, entries[..0], upper) && Distinct(entries[..0], upper) by {
      NoEntries(upper);
    }
    for i := 0 to |entries|
      invariant Keys(ids, names, entries[..i], upper)
      invariant forall k :: 0 <= k < i ==> WellFormed(entries[k])
      invariant Distinct(entries[..i], upper)
    {
      var harness := entries[i];
      KeysGrow(ids, names, entries[..i], harness, upper);
      assert entries[..i + 1] == entries[..i] + [harness];
      assert Distinct(entries, upper) ==> Distinct(entries[..i + 1], upper) by {
        if Distinct(entries, upper) { PrefixDistinct(entries, i + 1, upper); }
      }
      if harness.id == "" || harness.name == "" {
        NamesNeeded(harness);
        return false;
      }
      var id, name := upper(harness.id), upper(harness.name);
      if id in ids {
        return false;
      }
      if name in names {
        return false;
      }
      ids, names := ids + {id}, names + {name};
      var ok := CheckStates(harness);
      if !ok {
        return false;
      }
    }
    assert entries[..|entries|] == entries;
    return true;
  }

  lemma NoEntries(upper: string -> string)
    ensures Keys({}, {}, [], upper) && Distinct([], upper)
  {
  }

  lemma NamesNeeded(h: Harness)
    ensures WellFormed(h) ==> h.id != "" && h.name != ""
  {
  }

  method CheckFirstClass(harnesses: seq<Harness>) returns (ok: bool)
    ensures ok <==> forall i :: 1 <= i <= 8 ==> Lists(harnesses, FirstClassId(i))
  {
    var index := 1;
    while index <= 8
      invariant 1 <= index <= 9
      invariant forall i :: 1 <= i < index ==> Lists(harnesses, FirstClassId(i))
    {
      if !Lists(harnesses, FirstClassId(index)) {
        return false;
      }
      index := index + 1;
    }
    return true;
  }

  // validateRegistryDocument accepts exactly the valid documents.
  method ValidateRegistryDocument(document: Document, upper: string -> string) returns (ok: bool)
    ensures ok <==> ValidDocument(document, upper)
  {
    if document.schemaVersion != SCHEMA_VERSION {
      return false;
    }
    if !document.runtimeImplemented {
      return false;
    }
    if document.harnesses.None? || |document.harnesses.value| != 8 {
      return false;
    }
    if document.requiredEvidence.None? || |document.requiredEvidence.value| == 0 {
      return false;
    }
    var entries := CheckEntries(document.harnesses.value + document.auxiliary, upper);
    if !entries {
      return false;
    }
    ok := CheckFirstClass(document.harnesses.value);
  }

  // ----- The first-class list -----

  function Ids(harnesses: seq<Harness>): seq<string> {
    seq(|harnesses|, k requires 0 <= k < |harnesses| => harnesses[k].id)
  }

  lemma FullMultiset<T>(part: multiset<T>, whole: multiset<T>)
    requires part <= whole && |part| == |whole|
    ensures part == whole
  {
    assert whole == part + (whole - part);
    assert |whole - part| == 0;
  }

  // Eight entries, every expected id among them: nothing else, and nothing twice.
  lemma FirstClassIsPermutation(document: Document, upper: string -> string)
    requires ValidDocument(document, upper)
    ensures multiset(Ids(document.harnesses.value)) == multiset(FirstClassIds())
  {
    var ids := Ids(document.harnesses.value);
    var expected := FirstClassIds();
    forall id | id in multiset(expected)
      ensures multiset(expected)[id] == 1 <= multiset(ids)[id]
    {
      ExpectedOnce(id);
      var i :| 0 <= i < 8 && expected[i] == id;
      assert Lists(document.harnesses.value, FirstClassId(i + 1));
      var k :| 0 <= k < 8 && document.harnesses.value[k].id == id;
      assert ids[k] == id;
    }
    FullMultiset(multiset(expected), multiset(ids));
  }

  lemma ExpectedOnce(id: string)
    requires id in multiset(FirstClassIds())
    ensures multiset(FirstClassIds())[id] == 1
  {
    var e := FirstClassIds();
    assert e[0][2] == '1' && e[1][2] == '2' && e[2][2] == '3' && e[3][2] == '4';
    assert e[4][2] == '5' && e[5][2] == '6' && e[6][2] == '7' && e[7][2] == '8';
  }

  // ----- The index -----

  predicate Answers(h: Harness, query: string, upper: string -> string) {
    upper(query) == upper(h.id) || upper(query) == upper(h.name)
  }

  // A plain scan: the first entry whose id or name is the query, in any case.
  function Scan(entries: seq<Harness>, query: string, upper: string -> string): Option<Harness> {
    if entries == [] then None
    else if Answers(entries[0], query, upper) then Some(entries[0])
    else Scan(entries[1..], query, upper)
  }

  // The index keeps the last entry written under a key.
  function Indexed(entries: seq<Harness>, upper: string -> string): map<string, Harness> {
    if entries == [] then map[]
    else
      var last := entries[|entries| - 1];
      Indexed(entries[..|entries| - 1], upper)[upper(last.id) := last][upper(last.name) := last]
  }

  function Lookup(index: map<string, Harness>, query: string, upper: string -> string): Option<Harness> {
    if upper(query) in index then Some(index[upper(query)]) else None
  }

  // No name is another entry's id.
  predicate NoCrossing(entries: seq<Harness>, upper: string -> string) {
    forall i, j :: 0 <= i < |entries| && 0 <= j < |entries| && i != j ==> upper(entries[i].name) != upper(entries[j].id)
  }

  lemma {:induction false} ScanFinds(entries: seq<Harness>, query: string, upper: string -> string) returns (k: nat)
    ensures k <= |entries| && forall i :: 0 <= i < k ==> !Answers(entries[i], query, upper)
    ensures if k < |entries| then Answers(entries[k], query, upper) && Scan(entries, query, upper) == Some(entries[k])
            else Scan(entries, query, upper) == None
  {
    if entries == [] {
      k := 0;
    } else if Answers(entries[0], query, upper) {
      k := 0;
    } else {
      var rest := ScanFinds(entries[1..], query, upper);
      k := rest + 1;
    }
  }

  lemma {:induction false} IndexFinds(entries: seq<Harness>, query: string, upper: string -> string) returns (k: int)
    ensures -1 <= k < |entries| && forall i :: k < i < |entries| ==> !Answers(entries[i], query, upper)
    ensures var r := Lookup(Indexed(entries, upper), query, upper);
      if k >= 0 then Answers(entries[k], query, upper) && r == Some(entries[k]) else r == None
  {
    if entries == [] {
      k := -1;
    } else {
      var n := |entries| - 1;
      k := IndexFinds(entries[..n], query, upper);
      if Answers(entries[n], query, upper) {
        k := n;
      }
    }
  }

  // The index answers every query as the plain scan does if and only if no canonical name is,
  // in any case, another entry's id.
  lemma IndexAgreesWithScan(entries: seq<Harness>, upper: string -> string)
    requires Distinct(entries, upper)
    ensures (forall query :: Lookup(Indexed(entries, upper), query, upper) == Scan(entries, query, upper))
      <==> NoCrossing(entries, upper)
  {
    if NoCrossing(entries, upper) {
      forall query
        ensures Lookup(Indexed(entries, upper), query, upper) == Scan(entries, query, upper)
      {
        var first := ScanFinds(entries, query, upper);
        var last := IndexFinds(entries, query, upper);
        assert last >= 0 ==> Answers(entries[last], query, upper) && first <= last;
      }
    } else {
      var i, j :| 0 <= i < |entries| && 0 <= j < |entries| && i != j && upper(entries[i].name) == upper(entries[j].id);
      var query := entries[j].id;
      var first := ScanFinds(entries, query, upper);
      var last := IndexFinds(entries, query, upper);
      assert Answers(entries[i], query, upper) && Answers(entries[j], query, upper);
      assert first < last;
      assert upper(entries[first].id) != upper(entries[last].id);
    }
  }

  // The registry object: a validated document and the index built over it.
  class Registry {
    const upper: string -> string
    const entries: seq<Harness>
    var index: map<string, Harness>

    ghost predicate Valid()
      reads this
    {
      Distinct(entries, upper) && index == Indexed(entries, upper)
    }

    constructor (document: Document, upper: string -> string)
      requires ValidDocument(document, upper)
      ensures Valid() && this.upper == upper && entries == document.harnesses.value + document.auxiliary
    {
      var all := document.harnesses.value + document.auxiliary;
      this.upper, entries, index := upper, all, map[];
      new;
      for i := 0 to |all|
        invariant entries == all && this.upper == upper
        invariant index == Indexed(all[..i], upper)
      {
        assert all[..i + 1][..i] == all[..i];
        var harness := all[i];
        index := index[upper(harness.id) := harness];
        index := index[upper(harness.name) := harness];
      }
      assert all[..|all|] == all;
    }

    method GetHarness(query: string) returns (r: Option<Harness>)
      requires Valid()
      ensures r == Lookup(index, query, upper)
      ensures NoCrossing(entries, upper) ==> r == Scan(entries, query, upper)
    {
      if upper(query) in index {
        r := Some(index[upper(query)]);
      } else {
        r := None;
      }
      IndexAgreesWithScan(entries, upper);
    }
  }

  // A document that does not validate makes no registry.
  method CreateRegistry(document: Document, upper: string -> string) returns (r: Option<Registry>)
    ensures r.Some? <==> ValidDocument(document, upper)
    ensures r.Some? ==> fresh(r.value) && r.value.Valid()
    ensures r.Some? ==> r.value.entries == document.harnesses.value + document.auxiliary
  {
    var ok := ValidateRegistryDocument(document, upper);
    if !ok {
      return None;
    }
    var registry := new Registry(document, upper);
    return Some(registry);
  }

  // ----- The passport (230-255) -----

  datatype Passport = Passport(
    schemaVersion: string, harnessId: string, name: string, support: Status, readiness: string,
    evidence: Option<seq<Item>>)

  predicate Carries(evidence: seq<Item>, id: string) {
    exists k :: 0 <= k < |evidence| && evidence[k].id == id
  }

  ghost predicate ValidPassport(p: Passport, h: Harness, required: seq<string>) {
    && p.schemaVersion == SCHEMA_VERSION && p.harnessId == h.id && p.name == h.name
    && !p.support.Unlisted? && p.support == h.support
    && ReadinessState(p.readiness) && h.readiness == Some(p.readiness)
    && p.evidence.Some?
    && (forall k :: 0 <= k < |p.evidence.value| ==>
      p.evidence.value[k].id != "" && EvidenceState(p.evidence.value[k].status))
    && (forall i, j :: 0 <= i < j < |p.evidence.value| ==> p.evidence.value[i].id != p.evidence.value[j].id)
    && (forall m :: 0 <= m < |required| ==> Carries(p.evidence.value, required[m]))
  }

  method CollectEvidence(evidence: seq<Item>) returns (r: Option<set<string>>)
    ensures r.Some? <==>
      && (forall k :: 0 <= k < |evidence| ==> evidence[k].id != "" && EvidenceState(evidence[k].status))
      && (forall i, j :: 0 <= i < j < |evidence| ==> evidence[i].id != evidence[j].id)
    ensures r.Some? ==> forall id :: id in r.value <==> Carries(evidence, id)
  {
    var ids: set<string> := {};
    for n := 0 to |evidence|
      invariant forall id :: id in ids <==> exists k :: 0 <= k < n && evidence[k].id == id
      invariant forall k :: 0 <= k < n ==> evidence[k].id != "" && EvidenceState(evidence[k].status)
      invariant forall i, j :: 0 <= i < j < n ==> evidence[i].id != evidence[j].id
    {
      if evidence[n].id == "" || evidence[n].id in ids {
        return None;
      }
      ids := ids + {evidence[n].id};
      if !EvidenceState(evidence[n].status) {
        return None;
      }
    }
    return Some(ids);
  }

  method ValidateCombatPassport(p: Passport, h: Harness, required: seq<string>) returns (ok: bool)
    ensures ok <==> ValidPassport(p, h, required)
  {
    if p.schemaVersion != SCHEMA_VERSION || p.harnessId != h.id || p.name != h.name {
      return false;
    }
    if p.support.Unlisted? || !ReadinessState(p.readiness) {
      return false;
    }
    if p.support != h.support || h.readiness != Some(p.readiness) {
      return false;
    }
    if p.evidence.None? {
      return false;
    }
    var ids := CollectEvidence(p.evidence.value);
    if ids.None? {
      return false;
    }
    for m := 0 to |required|
      invariant forall n :: 0 <= n < m ==> Carries(p.evidence.value, required[n])
    {
      if required[m] !in ids.value {
        return false;
      }
    }
    return true;
  }

  // A passport speaks for one entry of a valid document at most, whatever is required of it; two that
  // are accepted for the same harness differ in their evidence alone.
  lemma PassportNamesOneHarness(
    document: Document, upper: string -> string, p: Passport, i: nat, j: nat, a: seq<string>, b: seq<string>)
    requires ValidDocument(document, upper)
    requires var entries := document.harnesses.value + document.auxiliary;
      i < |entries| && j < |entries| && ValidPassport(p, entries[i], a) && ValidPassport(p, entries[j], b)
    ensures i == j
  {
    var entries := document.harnesses.value + document.auxiliary;
    assert entries[i].id == entries[j].id;
  }

  lemma PassportsAgree(p: Passport, q: Passport, h: Harness, a: seq<string>, b: seq<string>)
    requires ValidPassport(p, h, a) && ValidPassport(q, h, b)
    ensures q == p.(evidence := q.evidence)
  {
  }

  // Evidence on an accepted passport decides every promotion of its harness: the present support is
  // listed, so no transition to a listed status is an error, and a promotion is allowed exactly on
  // the evidence that the passport itself shows as verified.
  lemma PassportDecidesPromotion(p: Passport, h: Harness, required: seq<string>, target: Status)
    requires ValidPassport(p, h, required) && !target.Unlisted?
    ensures EvaluateSupportTransition(h.support, target, p.evidence.value, "").Ok?
    ensures Asked(h.support, target).Some? && h.support != target ==>
      (Allowed(h.support, target, p.evidence.value, "") <==>
        forall id :: id in Asked(h.support, target).value ==> Item(id, "VERIFIED") in p.evidence.value)
  {
    TransitionDecides(h.support, target, p.evidence.value, "");
    assert !HasReason("");
    hide EvaluateSupportTransition;
    hide HasReason;
    if Asked(h.support, target).Some? {
      var ids := Asked(h.support, target).value;
      assert MeetsAll(p.evidence.value, ids) <==> forall id :: id in ids ==> Verified(p.evidence.value, id) by {
        assert forall k :: 0 <= k < |ids| ==> ids[k] in ids;
      }
    }
    hide Requirements;
  }

  // A valid passport carries at most one verdict on each piece of evidence, so no id is both
  // verified and anything else, and every required id has one.
  lemma EvidenceIsUnambiguous(p: Passport, h: Harness, required: seq<string>, id: string)
    requires ValidPassport(p, h, required) && id in required
    ensures exists status ::
      && Item(id, status) in p.evidence.value && EvidenceState(status)
      && forall other :: Item(id, other) in p.evidence.value ==> other == status
  {
    var m :| 0 <= m < |required| && required[m] == id;
    var k :| 0 <= k < |p.evidence.value| && p.evidence.value[k].id == required[m];
    var status := p.evidence.value[k].status;
    assert p.evidence.value[k] == Item(id, status);
    forall other | Item(id, other) in p.evidence.value
      ensures other == status
    {
      var j :| 0 <= j < |p.evidence.value| && p.evidence.value[j] == Item(id, other);
      assert j < k || j == k || k < j;
    }
  }
}
