/** Which scenarios a set of changed files selects, and the validator every selection must pass. */
module ImpactSelector {
  import opened Prelude
  import opened Sorting
  import opened Strings

  datatype ImpactError =
    | RevisionInvalid
    | ChangesRequired
    | ChangeInvalid
    | ChangeDuplicate
    | IdentityInvalid
    | ChangeOrderInvalid
    | UnmatchedInvalid
    | DecisionInvalid
    | CoverageInvalid
    | ClassificationInvalid
    | DigestInvalid
    | MappingInvalid

  datatype ChangeStatus = Added | Copied | Deleted | Modified | Renamed | TypeChanged | OtherStatus
  datatype Change = Change(status: ChangeStatus, path: string, previous: Option<string>)

  datatype Effect = Everything | Targets | NoTest
  datatype Rule = Rule(id: string, effect: Effect, scenarios: seq<string>, paths: seq<string>, prefixes: seq<string>)
  datatype Scenario = Scenario(id: string, relatedPaths: seq<string>)
  datatype Registry = Registry(scenarios: seq<Scenario>, digest: string)
  datatype Policy = Policy(rules: seq<Rule>, digest: string)

  const RELATED_PATH: string := "registry_related_path"
  const UNKNOWN_PATH: string := "unknown_path_fallback"

  /** What loading has checked: rules have distinct ids and target registered scenarios, which have distinct ids. */
  ghost predicate WellFormed(reg: Registry, pol: Policy) {
    && Distinct(Ids(reg.scenarios))
    && (forall i, j | 0 <= i < j < |pol.rules| :: pol.rules[i].id != pol.rules[j].id)
    && (forall r | r in pol.rules :: r.effect.Targets? ==> forall id | id in r.scenarios :: id in Ids(reg.scenarios))
  }

  function Ids(scenarios: seq<Scenario>): (r: seq<string>)
    ensures |r| == |scenarios| && forall i | 0 <= i < |r| :: r[i] == scenarios[i].id
  {
    if scenarios == [] then [] else Ids(scenarios[..|scenarios| - 1]) + [scenarios[|scenarios| - 1].id]
  }

  predicate Hex(s: string, n: nat) {
    |s| == n && forall c | c in s :: '0' <= c <= '9' || 'a' <= c <= 'f'
  }

  predicate RevisionsOk(base: string, head: string) {
    Hex(base, 40) && Hex(head, 40) && base != head
  }

  // ---------------------------------------------------------------- canonical changes

  function PathsOf(c: Change): seq<string> {
    [c.path] + if c.previous.Some? then [c.previous.value] else []
  }

  predicate ValidChange(c: Change, safe: string -> bool) {
    && !c.status.OtherStatus? && safe(c.path)
    && ((c.status.Copied? || c.status.Renamed?) <==> c.previous.Some?)
    && (c.previous.Some? ==> safe(c.previous.value) && c.previous.value != c.path)
  }

  /** No path occurs in two changes. */
  ghost predicate Disjoint(cs: seq<Change>) {
    forall i, j | 0 <= i < j < |cs| :: forall p | p in PathsOf(cs[i]) :: p !in PathsOf(cs[j])
  }

  function StatusRank(s: ChangeStatus): nat {
    match s
    case Added => 0
    case Copied => 1
    case Deleted => 2
    case Modified => 3
    case Renamed => 4
    case TypeChanged => 5
    case OtherStatus => 6
  }

  /** By path, then by previous path (absent first), then by status. */
  predicate ChangeLeq(a: Change, b: Change) {
    if a.path != b.path then StrLeq(a.path, b.path)
    else if a.previous != b.previous then
      a.previous.None? || (b.previous.Some? && StrLeq(a.previous.value, b.previous.value))
    else StatusRank(a.status) <= StatusRank(b.status)
  }

  lemma ChangeOrder()
    ensures TotalOrder(ChangeLeq)
  {
    forall a, b
      ensures ChangeLeq(a, b) || ChangeLeq(b, a)
      ensures ChangeLeq(a, b) && ChangeLeq(b, a) ==> a == b
    {
      StrTotal(a.path, b.path);
      if StrLeq(a.path, b.path) && StrLeq(b.path, a.path) { StrAntisymmetric(a.path, b.path); }
      if a.previous.Some? && b.previous.Some? {
        var x, y := a.previous.value, b.previous.value;
        StrTotal(x, y);
        if StrLeq(x, y) && StrLeq(y, x) { StrAntisymmetric(x, y); }
      }
    }
    forall a, b, c | ChangeLeq(a, b) && ChangeLeq(b, c)
      ensures ChangeLeq(a, c)
    {
      ChangeLeqTransitive(a, b, c);
    }
  }

  lemma ChangeLeqTransitive(a: Change, b: Change, c: Change)
    requires ChangeLeq(a, b) && ChangeLeq(b, c)
    ensures ChangeLeq(a, c)
  {
    hide StrLeq;
    if StrLeq(a.path, b.path) && StrLeq(b.path, c.path) {
      StrTransitive(a.path, b.path, c.path);
      if a.path == c.path { StrAntisymmetric(a.path, b.path); }
    }
    if a.previous.Some? && b.previous.Some? && c.previous.Some? {
      var x, y, z := a.previous.value, b.previous.value, c.previous.value;
      if StrLeq(x, y) && StrLeq(y, z) {
        StrTransitive(x, y, z);
        if x == z { StrAntisymmetric(x, y); }
      }
    }
  }

  /** First fault met while the changes are read in order. */
  function ChangeFault(cs: seq<Change>, safe: string -> bool): (r: Option<ImpactError>)
    ensures r.None? <==> (forall c | c in cs :: ValidChange(c, safe)) && Disjoint(cs)
  {
    if cs == [] then None
    else
      var n := |cs| - 1;
      assert cs == cs[..n] + [cs[n]];
      var before := ChangeFault(cs[..n], safe);
      if before.Some? then
        before
      else if !ValidChange(cs[n], safe) then
        Some(ChangeInvalid)
      else if exists i | 0 <= i < n :: exists p | p in PathsOf(cs[i]) :: p in PathsOf(cs[n]) then
        Some(ChangeDuplicate)
      else
        None
  }

  /** `_canonical_changes`. */
  function Canonical(cs: seq<Change>, safe: string -> bool): Result<seq<Change>, ImpactError> {
    var given := cs != [];
    :- Need(given, ChangesRequired);
    match ChangeFault(cs, safe)
    case Some(error) => Err(error)
    case None => Ok(Sort(cs, ChangeLeq))
  }

  lemma {:induction false} FaultPersists(cs: seq<Change>, safe: string -> bool, n: nat)
    requires n <= |cs| && ChangeFault(cs[..n], safe).Some?
    ensures ChangeFault(cs, safe) == ChangeFault(cs[..n], safe)
    decreases |cs| - n
  {
    if n == |cs| {
      assert cs[..n] == cs;
    } else {
      assert cs[..n + 1][..n] == cs[..n];
      FaultPersists(cs, safe, n + 1);
    }
  }

  // ---------------------------------------------------------------- what a path hits

  predicate StartsWith(path: string, prefix: string) {
    |prefix| <= |path| && path[..|prefix|] == prefix
  }

  predicate RuleMatches(r: Rule, path: string) {
    path in r.paths || exists prefix | prefix in r.prefixes :: StartsWith(path, prefix)
  }

  /** Scenarios that name the path themselves. */
  function Related(reg: Registry, path: string): set<string> {
    set s | s in reg.scenarios && path in s.relatedPaths :: s.id
  }

  function RulesHit(pol: Policy, effect: Effect, path: string): set<string> {
    set r | r in pol.rules && r.effect == effect && RuleMatches(r, path) :: r.id
  }

  function TargetRules(pol: Policy, id: string, path: string): set<string> {
    set r | r in pol.rules && r.effect.Targets? && RuleMatches(r, path) && id in r.scenarios :: r.id
  }

  function PathHits(reg: Registry, pol: Policy, id: string, path: string): set<string> {
    (if id in Related(reg, path) then {RELATED_PATH} else {}) + TargetRules(pol, id, path)
  }

  predicate Matched(reg: Registry, pol: Policy, path: string) {
    Related(reg, path) != {} || exists r | r in pol.rules :: RuleMatches(r, path)
  }

  // ---------------------------------------------------------------- what a set of paths selects

  function AllPaths(cs: seq<Change>): set<string> {
    set c, p | c in cs && p in PathsOf(c) :: p
  }

  function Hits(reg: Registry, pol: Policy, id: string, paths: set<string>): set<string> {
    set p, x | p in paths && x in PathHits(reg, pol, id, p) :: x
  }

  function Unmatched(reg: Registry, pol: Policy, paths: set<string>): set<string> {
    set p | p in paths && !Matched(reg, pol, p)
  }

  function RulesHitBy(pol: Policy, effect: Effect, paths: set<string>): set<string> {
    set p, x | p in paths && x in RulesHit(pol, effect, p) :: x
  }

  function FullRules(reg: Registry, pol: Policy, paths: set<string>): set<string> {
    RulesHitBy(pol, Everything, paths) + if Unmatched(reg, pol, paths) != {} then {UNKNOWN_PATH} else {}
  }

  /** Scenarios hit directly. */
  function Direct(reg: Registry, pol: Policy, paths: set<string>): set<string> {
    set s | s in reg.scenarios && Hits(reg, pol, s.id, paths) != {} :: s.id
  }

  datatype Classification = FullE2E | TargetedE2E | NoE2E
  datatype DecisionReason = FullRequired | DirectlyImpacted | NotImpacted | NoneRequired
  datatype Decision = Decision(scenario: string, selected: bool, reason: DecisionReason, rules: seq<string>)

  function IdSet(reg: Registry): set<string> {
    set s | s in reg.scenarios :: s.id
  }

  function Classify(full: set<string>, direct: set<string>, all: set<string>): Classification {
    if full != {} || direct == all then FullE2E else if direct != {} then TargetedE2E else NoE2E
  }

  function Decide(id: string, classification: Classification, hits: set<string>, full: set<string>, none: set<string>): Decision {
    match classification
    case FullE2E => Decision(id, true, FullRequired, SortedListing(full + hits))
    case TargetedE2E =>
      if hits != {} then Decision(id, true, DirectlyImpacted, SortedListing(hits)) else Decision(id, false, NotImpacted, [])
    case NoE2E =>
      if hits != {} then Decision(id, true, DirectlyImpacted, SortedListing(hits)) else Decision(id, false, NoneRequired, SortedListing(none))
  }

  function ClassificationOf(reg: Registry, pol: Policy, paths: set<string>): Classification {
    Classify(FullRules(reg, pol, paths), Direct(reg, pol, paths), IdSet(reg))
  }

  function DecisionFor(reg: Registry, pol: Policy, paths: set<string>, id: string): Decision {
    Decide(id, ClassificationOf(reg, pol, paths), Hits(reg, pol, id, paths), FullRules(reg, pol, paths), RulesHitBy(pol, NoTest, paths))
  }

  function Decisions(reg: Registry, pol: Policy, paths: set<string>, n: nat): (r: seq<Decision>)
    requires n <= |reg.scenarios|
    ensures |r| == n && forall i | 0 <= i < n :: r[i] == DecisionFor(reg, pol, paths, reg.scenarios[i].id)
  {
    if n == 0 then []
    else
      var before := Decisions(reg, pol, paths, n - 1);
      var last := DecisionFor(reg, pol, paths, reg.scenarios[n - 1].id);
      before + [last]
  }

  // ---------------------------------------------------------------- the manifest

  datatype Manifest = Manifest(
    base: string,
    head: string,
    registryDigest: string,
    policyDigest: string,
    classification: Classification,
    changed: seq<Change>,
    unmatched: seq<string>,
    decisions: seq<Decision>,
    digest: string)

  /** `safe` is the path check, `sign` the digest of a manifest without its own digest. */
  datatype Checks = Checks(safe: string -> bool, sign: Manifest -> string)

  function Signed(m: Manifest, k: Checks): Manifest {
    m.(digest := k.sign(m.(digest := "")))
  }

  function Derived(reg: Registry, pol: Policy, canonical: seq<Change>, base: string, head: string, k: Checks): Manifest {
    var paths := AllPaths(canonical);
    Signed(Manifest(base, head, reg.digest, pol.digest, ClassificationOf(reg, pol, paths), canonical,
                    SortedListing(Unmatched(reg, pol, paths)), Decisions(reg, pol, paths, |reg.scenarios|), ""), k)
  }

  /** `_derive_manifest`. */
  function Derive(reg: Registry, pol: Policy, cs: seq<Change>, base: string, head: string, k: Checks): Result<Manifest, ImpactError> {
    var revisions := RevisionsOk(base, head);
    :- Need(revisions, RevisionInvalid);
    var canonical :- Canonical(cs, k.safe);
    Ok(Derived(reg, pol, canonical, base, head, k))
  }

  // ---------------------------------------------------------------- the validator

  predicate UniqueSorted(xs: seq<string>) {
    Distinct(xs) && Sort(xs, StrLeq) == xs
  }

  predicate AllowedRule(pol: Policy, id: string) {
    id == RELATED_PATH || id == UNKNOWN_PATH || exists r | r in pol.rules :: r.id == id
  }

  predicate DecisionOk(d: Decision, classification: Classification, pol: Policy) {
    && UniqueSorted(d.rules)
    && (forall id | id in d.rules :: AllowedRule(pol, id))
    && match classification
       case NoE2E => d.reason == NoneRequired
       case FullE2E => d.reason == FullRequired
       case TargetedE2E => d.reason == if d.selected then DirectlyImpacted else NotImpacted
  }

  function DecisionIds(ds: seq<Decision>): (r: seq<string>)
    ensures |r| == |ds| && forall i | 0 <= i < |r| :: r[i] == ds[i].scenario
  {
    if ds == [] then [] else DecisionIds(ds[..|ds| - 1]) + [ds[|ds| - 1].scenario]
  }

  function SelectedOne(d: Decision): int {
    if d.selected then 1 else 0
  }

  predicate CountFits(classification: Classification, selected: int, scenarios: int) {
    match classification
    case FullE2E => selected == scenarios
    case TargetedE2E => 0 < selected < scenarios
    case NoE2E => selected == 0
  }

  /** `_validate_manifest_structure`. */
  function StructureFault(m: Manifest, reg: Registry, pol: Policy, k: Checks): Check<ImpactError> {
    if !(m.registryDigest == reg.digest && m.policyDigest == pol.digest && Hex(m.digest, 64)) then Fail(IdentityInvalid)
    else if !RevisionsOk(m.base, m.head) then Fail(RevisionInvalid)
    else
      match Canonical(m.changed, k.safe)
      case Err(error) => Fail(error)
      case Ok(canonical) =>
        if m.changed != canonical then Fail(ChangeOrderInvalid)
        else if !(UniqueSorted(m.unmatched) && forall p | p in m.unmatched :: p in AllPaths(canonical)) then Fail(UnmatchedInvalid)
        else if exists d | d in m.decisions :: !DecisionOk(d, m.classification, pol) then Fail(DecisionInvalid)
        else if DecisionIds(m.decisions) != Ids(reg.scenarios) then Fail(CoverageInvalid)
        else if !CountFits(m.classification, SumOf(m.decisions, SelectedOne), |reg.scenarios|) then Fail(ClassificationInvalid)
        else Need(m.digest == k.sign(m.(digest := "")), DigestInvalid)
  }

  /** `validate_manifest`: the structure, and that the stored changes derive this very manifest. */
  function ValidationFault(m: Manifest, reg: Registry, pol: Policy, k: Checks): Check<ImpactError> {
    var fault := StructureFault(m, reg, pol, k);
    if fault.Fail? then fault
    else
      match Derive(reg, pol, m.changed, m.base, m.head, k)
      case Err(error) => Fail(error)
      case Ok(expected) => Need(m == expected, MappingInvalid)
  }

  // ---------------------------------------------------------------- order independence

  lemma {:induction false} DisjointPermutes(cs: seq<Change>, ds: seq<Change>)
    requires Disjoint(cs) && multiset(cs) == multiset(ds)
    ensures Disjoint(ds)
  {
    forall i, j | 0 <= i < j < |ds|
      ensures forall p | p in PathsOf(ds[i]) :: p !in PathsOf(ds[j])
    {
      assert forall a, b | 0 <= a < b < |cs| :: cs[a] != cs[b] by {
        forall a, b | 0 <= a < b < |cs|
          ensures cs[a] != cs[b]
        {
          assert cs[a].path in PathsOf(cs[a]);
        }
      }
      DistinctCount(cs, ds[i]);
      if ds[i] == ds[j] {
        DuplicateCount(ds, i, j);
      }
      assert ds[i] in multiset(cs) && ds[j] in multiset(cs);
      var a :| 0 <= a < |cs| && cs[a] == ds[i];
      var b :| 0 <= b < |cs| && cs[b] == ds[j];
      assert if a < b then forall p | p in PathsOf(cs[a]) :: p !in PathsOf(cs[b])
             else forall p | p in PathsOf(cs[b]) :: p !in PathsOf(cs[a]);
    }
  }

  lemma CanonicalOrderIndependent(cs: seq<Change>, ds: seq<Change>, safe: string -> bool)
    requires multiset(cs) == multiset(ds) && Canonical(cs, safe).Ok?
    ensures Canonical(ds, safe) == Canonical(cs, safe)
  {
    assert |multiset(cs)| == |cs| && |multiset(ds)| == |ds|;
    forall d | d in ds
      ensures ValidChange(d, safe)
    {
      assert d in multiset(ds);
      assert d in multiset(cs);
    }
    DisjointPermutes(cs, ds);
    ChangeOrder();
    SortOrderIndependent(cs, ds, ChangeLeq);
  }

  /** The derived manifest does not depend on the order of the changes. */
  lemma OrderIndependent(reg: Registry, pol: Policy, cs: seq<Change>, ds: seq<Change>, base: string, head: string, k: Checks)
    requires multiset(cs) == multiset(ds) && Derive(reg, pol, cs, base, head, k).Ok?
    ensures Derive(reg, pol, ds, base, head, k) == Derive(reg, pol, cs, base, head, k)
  {
    hide Canonical, Derived;
    CanonicalOrderIndependent(cs, ds, k.safe);
  }

  // ---------------------------------------------------------------- monotone selection

  function SelectedIn(m: Manifest): set<string> {
    set d | d in m.decisions && d.selected :: d.scenario
  }

  lemma HitsGrow(reg: Registry, pol: Policy, id: string, ps: set<string>, qs: set<string>)
    requires ps <= qs
    ensures Hits(reg, pol, id, ps) <= Hits(reg, pol, id, qs)
    ensures FullRules(reg, pol, ps) <= FullRules(reg, pol, qs)
    ensures Direct(reg, pol, ps) <= Direct(reg, pol, qs)
  {
    hide PathHits, RulesHit, Matched;
    forall s | s in reg.scenarios && Hits(reg, pol, s.id, ps) != {}
      ensures Hits(reg, pol, s.id, qs) != {}
    {
      var x :| x in Hits(reg, pol, s.id, ps);
      assert x in Hits(reg, pol, s.id, qs);
    }
    assert Unmatched(reg, pol, ps) <= Unmatched(reg, pol, qs);
  }

  /** More paths never deselect a scenario. */
  lemma SelectionGrows(reg: Registry, pol: Policy, id: string, ps: set<string>, qs: set<string>)
    requires ps <= qs && id in IdSet(reg) && DecisionFor(reg, pol, ps, id).selected
    ensures DecisionFor(reg, pol, qs, id).selected
  {
    HitsGrow(reg, pol, id, ps, qs);
    hide Hits, FullRules, SortedListing, RulesHitBy;
    assert Direct(reg, pol, ps) <= IdSet(reg) && Direct(reg, pol, qs) <= IdSet(reg);
  }

  /** Adding a valid change never deselects a scenario. */
  lemma Monotone(reg: Registry, pol: Policy, cs: seq<Change>, c: Change, base: string, head: string, k: Checks)
    requires Derive(reg, pol, cs, base, head, k).Ok? && Derive(reg, pol, cs + [c], base, head, k).Ok?
    ensures SelectedIn(Derive(reg, pol, cs, base, head, k).value) <= SelectedIn(Derive(reg, pol, cs + [c], base, head, k).value)
  {
    var ps, qs := AllPaths(Sort(cs, ChangeLeq)), AllPaths(Sort(cs + [c], ChangeLeq));
    SortPermutes(cs, ChangeLeq);
    SortPermutes(cs + [c], ChangeLeq);
    assert ps <= qs;
    hide Sort, AllPaths, ChangeFault;
    var m, n := Derive(reg, pol, cs, base, head, k).value, Derive(reg, pol, cs + [c], base, head, k).value;
    hide DecisionFor, Unmatched, ClassificationOf;
    forall id | id in SelectedIn(m)
      ensures id in SelectedIn(n)
    {
      var d :| d in m.decisions && d.selected && d.scenario == id;
      var i :| 0 <= i < |m.decisions| && m.decisions[i] == d;
      DecisionId(reg, pol, ps, reg.scenarios[i].id);
      DecisionId(reg, pol, qs, reg.scenarios[i].id);
      SelectionGrows(reg, pol, id, ps, qs);
      assert n.decisions[i] in n.decisions;
    }
  }

  lemma DecisionId(reg: Registry, pol: Policy, paths: set<string>, id: string)
    ensures DecisionFor(reg, pol, paths, id).scenario == id
  {
    hide Hits, FullRules, RulesHitBy, ClassificationOf, SortedListing;
  }

  /** One changed path that nothing matches forces every scenario. */
  lemma UnmatchedForcesAll(reg: Registry, pol: Policy, cs: seq<Change>, base: string, head: string, k: Checks, path: string)
    requires Derive(reg, pol, cs, base, head, k).Ok?
    requires path in AllPaths(cs) && !Matched(reg, pol, path)
    ensures var m := Derive(reg, pol, cs, base, head, k).value;
            && m.classification == FullE2E && path in m.unmatched
            && SelectedIn(m) == IdSet(reg)
            && forall d | d in m.decisions :: UNKNOWN_PATH in d.rules
  {
    SortPermutes(cs, ChangeLeq);
    var paths := AllPaths(Sort(cs, ChangeLeq));
    assert path in paths;
    hide Matched, Sort, ChangeFault, AllPaths;
    var m := Derive(reg, pol, cs, base, head, k).value;
    FallbackRule(reg, pol, paths, path);
    hide Unmatched, FullRules, Hits, Direct, RulesHitBy, ClassificationOf, DecisionFor;
    forall i | 0 <= i < |m.decisions|
      ensures m.decisions[i].selected && m.decisions[i].scenario == reg.scenarios[i].id && UNKNOWN_PATH in m.decisions[i].rules
    {
      FullSelects(reg, pol, paths, reg.scenarios[i].id);
    }
    FullCovers(reg, m);
  }

  lemma FallbackRule(reg: Registry, pol: Policy, paths: set<string>, path: string)
    requires path in paths && !Matched(reg, pol, path)
    ensures path in Unmatched(reg, pol, paths) && UNKNOWN_PATH in FullRules(reg, pol, paths)
    ensures ClassificationOf(reg, pol, paths) == FullE2E
  {
    hide Matched, RulesHitBy, Direct;
    assert path in Unmatched(reg, pol, paths);
  }

  lemma FullSelects(reg: Registry, pol: Policy, paths: set<string>, id: string)
    requires ClassificationOf(reg, pol, paths) == FullE2E
    ensures var d := DecisionFor(reg, pol, paths, id);
            && d.selected && d.scenario == id && d.reason == FullRequired
            && forall x | x in FullRules(reg, pol, paths) :: x in d.rules
  {
    hide ClassificationOf, FullRules, Hits, RulesHitBy;
  }

  lemma FullCovers(reg: Registry, m: Manifest)
    requires |m.decisions| == |reg.scenarios|
    requires forall i | 0 <= i < |m.decisions| :: m.decisions[i].selected && m.decisions[i].scenario == reg.scenarios[i].id
    ensures SelectedIn(m) == IdSet(reg)
  {
    forall id | id in IdSet(reg)
      ensures id in SelectedIn(m)
    {
      var s :| s in reg.scenarios && s.id == id;
      var i :| 0 <= i < |reg.scenarios| && reg.scenarios[i] == s;
      assert m.decisions[i] in m.decisions;
    }
    forall id | id in SelectedIn(m)
      ensures id in IdSet(reg)
    {
      var d :| d in m.decisions && d.selected && d.scenario == id;
      var i :| 0 <= i < |m.decisions| && m.decisions[i] == d;
      assert reg.scenarios[i] in reg.scenarios;
    }
  }

  // ---------------------------------------------------------------- every derived manifest is valid

  lemma ListingUniqueSorted(s: set<string>)
    ensures UniqueSorted(SortedListing(s))
  {
    ListingSorted(s);
    StringOrder();
    SortOfSorted(SortedListing(s), StrLeq);
  }

  /** Rule ids recorded anywhere come from the policy or are one of the two built-in names. */
  lemma RulesAllowed(reg: Registry, pol: Policy, paths: set<string>, id: string)
    ensures forall x | x in Hits(reg, pol, id, paths) :: AllowedRule(pol, x)
    ensures forall x | x in FullRules(reg, pol, paths) :: AllowedRule(pol, x)
    ensures forall x | x in RulesHitBy(pol, NoTest, paths) :: AllowedRule(pol, x)
  {
    hide RuleMatches, Related;
    forall p, x | p in paths && x in PathHits(reg, pol, id, p)
      ensures AllowedRule(pol, x)
    {
    }
    forall e: Effect, p, x | x in RulesHit(pol, e, p)
      ensures AllowedRule(pol, x)
    {
    }
  }

  lemma DirectHits(reg: Registry, pol: Policy, paths: set<string>, id: string)
    requires id in IdSet(reg) && ClassificationOf(reg, pol, paths) == NoE2E
    ensures Hits(reg, pol, id, paths) == {}
  {
    hide Hits, FullRules;
    var s :| s in reg.scenarios && s.id == id;
    assert Hits(reg, pol, s.id, paths) != {} ==> id in Direct(reg, pol, paths);
  }

  lemma DecisionFits(reg: Registry, pol: Policy, paths: set<string>, id: string)
    requires id in IdSet(reg)
    ensures var d := DecisionFor(reg, pol, paths, id);
            && d.scenario == id && DecisionOk(d, ClassificationOf(reg, pol, paths), pol)
            && (d.selected <==> ClassificationOf(reg, pol, paths) == FullE2E || Hits(reg, pol, id, paths) != {})
            && (ClassificationOf(reg, pol, paths) == NoE2E ==> !d.selected)
  {
    var full, hits, none := FullRules(reg, pol, paths), Hits(reg, pol, id, paths), RulesHitBy(pol, NoTest, paths);
    RulesAllowed(reg, pol, paths, id);
    if ClassificationOf(reg, pol, paths) == NoE2E {
      DirectHits(reg, pol, paths, id);
    }
    hide FullRules, Hits, RulesHitBy, ClassificationOf, Decide;
    DecideFits(id, ClassificationOf(reg, pol, paths), hits, full, none, pol);
  }

  lemma DecideFits(id: string, classification: Classification, hits: set<string>, full: set<string>, none: set<string>, pol: Policy)
    requires forall x | x in hits + full + none :: AllowedRule(pol, x)
    requires classification == NoE2E ==> hits == {}
    ensures var d := Decide(id, classification, hits, full, none);
            && d.scenario == id && DecisionOk(d, classification, pol)
            && (d.selected <==> classification == FullE2E || hits != {})
  {
    ListingUniqueSorted(full + hits);
    ListingUniqueSorted(hits);
    ListingUniqueSorted(none);
    ListingUniqueSorted({});
    hide UniqueSorted, AllowedRule;
  }

  lemma {:induction false} CountAll(ds: seq<Decision>)
    requires forall d | d in ds :: d.selected
    ensures SumOf(ds, SelectedOne) == |ds|
  {
    if ds != [] {
      assert ds[|ds| - 1] in ds;
      CountAll(ds[..|ds| - 1]);
    }
  }

  lemma {:induction false} CountNone(ds: seq<Decision>)
    requires forall d | d in ds :: !d.selected
    ensures SumOf(ds, SelectedOne) == 0
  {
    if ds != [] {
      assert ds[|ds| - 1] in ds;
      CountNone(ds[..|ds| - 1]);
    }
  }

  lemma {:induction false} CountBetween(ds: seq<Decision>)
    ensures 0 <= SumOf(ds, SelectedOne) <= |ds|
    ensures (exists d | d in ds :: d.selected) ==> 0 < SumOf(ds, SelectedOne)
    ensures (exists d | d in ds :: !d.selected) ==> SumOf(ds, SelectedOne) < |ds|
  {
    if ds != [] {
      assert ds == ds[..|ds| - 1] + [ds[|ds| - 1]];
      CountBetween(ds[..|ds| - 1]);
    }
  }

  /** The number of selected scenarios is what the classification says. */
  lemma CountsFit(reg: Registry, pol: Policy, paths: set<string>)
    ensures CountFits(ClassificationOf(reg, pol, paths), SumOf(Decisions(reg, pol, paths, |reg.scenarios|), SelectedOne), |reg.scenarios|)
  {
    var ds := Decisions(reg, pol, paths, |reg.scenarios|);
    var classification := ClassificationOf(reg, pol, paths);
    forall i | 0 <= i < |ds|
      ensures ds[i].selected <==> classification == FullE2E || Hits(reg, pol, reg.scenarios[i].id, paths) != {}
      ensures classification == NoE2E ==> !ds[i].selected
    {
      assert reg.scenarios[i] in reg.scenarios;
      DecisionFits(reg, pol, paths, reg.scenarios[i].id);
    }
    if classification == FullE2E {
      CountAll(ds);
    } else if classification == NoE2E {
      CountNone(ds);
    } else {
      SomeNotAll(reg, pol, paths, ds);
      CountBetween(ds);
    }
  }

  lemma SomeNotAll(reg: Registry, pol: Policy, paths: set<string>, ds: seq<Decision>)
    requires ClassificationOf(reg, pol, paths) == TargetedE2E && |ds| == |reg.scenarios|
    requires forall i | 0 <= i < |ds| :: ds[i].selected <==> Hits(reg, pol, reg.scenarios[i].id, paths) != {}
    ensures (exists d | d in ds :: d.selected) && (exists d | d in ds :: !d.selected)
  {
    hide Hits, FullRules;
    var direct := Direct(reg, pol, paths);
    var x :| x in direct;
    var s :| s in reg.scenarios && Hits(reg, pol, s.id, paths) != {} && s.id == x;
    var i :| 0 <= i < |reg.scenarios| && reg.scenarios[i] == s;
    assert ds[i] in ds && ds[i].selected;
    assert direct <= IdSet(reg);
    var y :| y in IdSet(reg) && y !in direct;
    var u :| u in reg.scenarios && u.id == y;
    var j :| 0 <= j < |reg.scenarios| && reg.scenarios[j] == u;
    assert ds[j] in ds && !ds[j].selected;
  }

  /** Sorting the stored changes again gives the same list. */
  lemma CanonicalStable(cs: seq<Change>, safe: string -> bool)
    requires Canonical(cs, safe).Ok?
    ensures var sorted := Canonical(cs, safe).value; sorted != [] && Canonical(sorted, safe) == Ok(sorted)
  {
    SortPermutes(cs, ChangeLeq);
    CanonicalOrderIndependent(cs, Sort(cs, ChangeLeq), safe);
  }

  /** Every derived manifest passes the structural check and the full validation. */
  lemma DerivedIsValid(reg: Registry, pol: Policy, cs: seq<Change>, base: string, head: string, k: Checks)
    requires WellFormed(reg, pol) && (forall m :: Hex(k.sign(m), 64))
    requires Derive(reg, pol, cs, base, head, k).Ok?
    ensures var m := Derive(reg, pol, cs, base, head, k).value;
            StructureFault(m, reg, pol, k).Pass? && ValidationFault(m, reg, pol, k).Pass?
  {
    var m := Derive(reg, pol, cs, base, head, k).value;
    CanonicalStable(cs, k.safe);
    var canonical := Canonical(cs, k.safe).value;
    var paths := AllPaths(canonical);
    hide Canonical, ClassificationOf, DecisionFor, AllPaths;
    CountsFit(reg, pol, paths);
    ListingUniqueSorted(Unmatched(reg, pol, paths));
    assert Unmatched(reg, pol, paths) <= paths;
    hide Unmatched, UniqueSorted, CountFits, SumOf, Hex, RevisionsOk, DecisionOk, IdSet;
    forall i | 0 <= i < |m.decisions|
      ensures m.decisions[i].scenario == reg.scenarios[i].id && DecisionOk(m.decisions[i], m.classification, pol)
    {
      InIdSet(reg, i);
      DecisionFits(reg, pol, paths, reg.scenarios[i].id);
    }
    SignedDigest(m, k);
    StructurePasses(m, reg, pol, k);
    hide StructureFault, Derived;
  }

  lemma InIdSet(reg: Registry, i: nat)
    requires i < |reg.scenarios|
    ensures reg.scenarios[i].id in IdSet(reg)
  {
    assert reg.scenarios[i] in reg.scenarios;
  }

  lemma SignedDigest(m: Manifest, k: Checks)
    requires m.digest == k.sign(m.(digest := "")) && forall x :: Hex(k.sign(x), 64)
    ensures Hex(m.digest, 64)
  {
    hide Hex;
  }

  lemma StructurePasses(m: Manifest, reg: Registry, pol: Policy, k: Checks)
    requires m.registryDigest == reg.digest && m.policyDigest == pol.digest && Hex(m.digest, 64)
    requires RevisionsOk(m.base, m.head)
    requires Canonical(m.changed, k.safe) == Ok(m.changed)
    requires UniqueSorted(m.unmatched) && forall p | p in m.unmatched :: p in AllPaths(m.changed)
    requires |m.decisions| == |reg.scenarios|
    requires forall i | 0 <= i < |m.decisions| :: m.decisions[i].scenario == reg.scenarios[i].id && DecisionOk(m.decisions[i], m.classification, pol)
    requires CountFits(m.classification, SumOf(m.decisions, SelectedOne), |reg.scenarios|)
    requires m.digest == k.sign(m.(digest := ""))
    ensures StructureFault(m, reg, pol, k).Pass?
  {
    hide Canonical, UniqueSorted, AllPaths, DecisionOk, CountFits, SumOf, Hex, RevisionsOk;
    assert DecisionIds(m.decisions) == Ids(reg.scenarios);
  }

  /** Validation accepts exactly the manifests that some list of changes derives. */
  lemma ValidIffDerived(m: Manifest, reg: Registry, pol: Policy, k: Checks)
    requires WellFormed(reg, pol) && (forall x :: Hex(k.sign(x), 64))
    ensures ValidationFault(m, reg, pol, k).Pass? <==> exists cs :: Derive(reg, pol, cs, m.base, m.head, k) == Ok(m)
  {
    if exists cs :: Derive(reg, pol, cs, m.base, m.head, k) == Ok(m) {
      var cs :| Derive(reg, pol, cs, m.base, m.head, k) == Ok(m);
      DerivedIsValid(reg, pol, cs, m.base, m.head, k);
    }
    hide StructureFault, Derive, WellFormed, Hex;
    if ValidationFault(m, reg, pol, k).Pass? {
      assert Derive(reg, pol, m.changed, m.base, m.head, k) == Ok(m);
    }
  }

  // ---------------------------------------------------------------- the selector's loops

  lemma FaultNext(cs: seq<Change>, i: nat, safe: string -> bool, occupied: set<string>)
    requires i < |cs| && ChangeFault(cs[..i], safe).None?
    requires forall p :: p in occupied <==> exists j | 0 <= j < i :: p in PathsOf(cs[j])
    ensures ChangeFault(cs[..i + 1], safe)
            == if !ValidChange(cs[i], safe) then Some(ChangeInvalid)
               else if exists p | p in PathsOf(cs[i]) :: p in occupied then Some(ChangeDuplicate)
               else None
  {
    assert cs[..i + 1][..i] == cs[..i];
    assert forall j | 0 <= j < i :: cs[..i][j] == cs[j];
    hide PathsOf, ValidChange;
  }

  lemma NoFaultYet(safe: string -> bool)
    ensures ChangeFault([], safe).None?
  {
  }

  /** Read the changes in order, refusing bad ones and any path already taken, then sort. */
  method CanonicalChanges(cs: seq<Change>, safe: string -> bool) returns (r: Result<seq<Change>, ImpactError>)
    ensures r == Canonical(cs, safe)
  {
    hide ChangeFault, PathsOf, ValidChange, Sort;
    if cs == [] {
      return Err(ChangesRequired);
    }
    var occupied: set<string> := {};
    assert cs[..0] == [];
    NoFaultYet(safe);
    for i := 0 to |cs|
      invariant ChangeFault(cs[..i], safe).None?
      invariant forall p :: p in occupied <==> exists j | 0 <= j < i :: p in PathsOf(cs[j])
    {
      var c := cs[i];
      FaultNext(cs, i, safe, occupied);
      if !ValidChange(c, safe) {
        FaultPersists(cs, safe, i + 1);
        return Err(ChangeInvalid);
      }
      var paths := PathsOf(c);
      if exists p | p in paths :: p in occupied {
        FaultPersists(cs, safe, i + 1);
        return Err(ChangeDuplicate);
      }
      occupied := occupied + set p | p in paths;
    }
    assert cs[..|cs|] == cs;
    r := Ok(Sort(cs, ChangeLeq));
  }

  function Named(m: map<string, set<string>>, key: string): set<string> {
    if key in m then m[key] else {}
  }

  /** The index from path to the scenarios that name it. */
  method DirectPaths(reg: Registry) returns (index: map<string, set<string>>)
    ensures forall p :: Named(index, p) == Related(reg, p)
  {
    index := map[];
    for i := 0 to |reg.scenarios|
      invariant forall p :: Named(index, p) == set j | 0 <= j < i && p in reg.scenarios[j].relatedPaths :: reg.scenarios[j].id
    {
      var s := reg.scenarios[i];
      ghost var before := index;
      for k := 0 to |s.relatedPaths|
        invariant forall p :: Named(index, p) == Named(before, p) + if p in s.relatedPaths[..k] then {s.id} else {}
      {
        var p := s.relatedPaths[k];
        index := index[p := Named(index, p) + {s.id}];
        assert s.relatedPaths[..k + 1] == s.relatedPaths[..k] + [p];
      }
      assert s.relatedPaths[..|s.relatedPaths|] == s.relatedPaths;
    }
    forall p
      ensures Named(index, p) == Related(reg, p)
    {
      IndexedRelated(reg, p);
    }
  }

  lemma IndexedRelated(reg: Registry, p: string)
    ensures Related(reg, p) == set j | 0 <= j < |reg.scenarios| && p in reg.scenarios[j].relatedPaths :: reg.scenarios[j].id
  {
    forall x | x in Related(reg, p)
      ensures exists j | 0 <= j < |reg.scenarios| :: p in reg.scenarios[j].relatedPaths && reg.scenarios[j].id == x
    {
      var s :| s in reg.scenarios && p in s.relatedPaths && s.id == x;
      var j :| 0 <= j < |reg.scenarios| && reg.scenarios[j] == s;
    }
  }

  /** What has been found so far, per scenario and overall. */
  datatype Findings = Findings(hits: map<string, set<string>>, full: set<string>, none: set<string>, unmatched: set<string>)

  /** The findings are those of the paths read so far. */
  ghost predicate Found(f: Findings, reg: Registry, pol: Policy, paths: set<string>) {
    && f.hits.Keys == IdSet(reg)
    && (forall id | id in f.hits :: f.hits[id] == Hits(reg, pol, id, paths))
    && f.full == RulesHitBy(pol, Everything, paths)
    && f.none == RulesHitBy(pol, NoTest, paths)
    && f.unmatched == Unmatched(reg, pol, paths)
  }

  lemma OneMorePath(reg: Registry, pol: Policy, paths: set<string>, p: string)
    ensures forall id :: Hits(reg, pol, id, paths + {p}) == Hits(reg, pol, id, paths) + PathHits(reg, pol, id, p)
    ensures forall e :: RulesHitBy(pol, e, paths + {p}) == RulesHitBy(pol, e, paths) + RulesHit(pol, e, p)
    ensures Unmatched(reg, pol, paths + {p}) == Unmatched(reg, pol, paths) + if Matched(reg, pol, p) then {} else {p}
  {
    hide PathHits, RulesHit, Matched;
  }

  function RuleHit(r: Rule, effect: Effect, path: string): set<string> {
    if r.effect == effect && RuleMatches(r, path) then {r.id} else {}
  }

  function TargetHit(r: Rule, id: string, path: string): set<string> {
    if r.effect.Targets? && RuleMatches(r, path) && id in r.scenarios then {r.id} else {}
  }

  lemma OneMoreRule(pol: Policy, rules: seq<Rule>, r: Rule, path: string)
    ensures var p, q := pol.(rules := rules), pol.(rules := rules + [r]);
            && (forall e :: RulesHit(q, e, path) == RulesHit(p, e, path) + RuleHit(r, e, path))
            && (forall id :: TargetRules(q, id, path) == TargetRules(p, id, path) + TargetHit(r, id, path))
  {
    hide RuleMatches;
    var p, q := pol.(rules := rules), pol.(rules := rules + [r]);
    forall e
      ensures RulesHit(q, e, path) == RulesHit(p, e, path) + RuleHit(r, e, path)
    {
      forall x | x in RulesHit(p, e, path)
        ensures x in RulesHit(q, e, path)
      {
        var t :| t in rules && t.effect == e && RuleMatches(t, path) && t.id == x;
        assert t in q.rules;
      }
      assert r in q.rules;
    }
    forall id
      ensures TargetRules(q, id, path) == TargetRules(p, id, path) + TargetHit(r, id, path)
    {
      forall x | x in TargetRules(p, id, path)
        ensures x in TargetRules(q, id, path)
      {
        var t :| t in rules && t.effect.Targets? && RuleMatches(t, path) && id in t.scenarios && t.id == x;
        assert t in q.rules;
      }
      assert r in q.rules;
    }
  }

  /** Record rule `r` for every scenario it targets. */
  method AddTargets(hits: map<string, set<string>>, r: Rule) returns (after: map<string, set<string>>)
    requires forall id | id in r.scenarios :: id in hits
    ensures after.Keys == hits.Keys
    ensures forall id | id in hits :: after[id] == hits[id] + if id in r.scenarios then {r.id} else {}
  {
    after := hits;
    for i := 0 to |r.scenarios|
      invariant after.Keys == hits.Keys
      invariant forall id | id in hits :: after[id] == hits[id] + if id in r.scenarios[..i] then {r.id} else {}
    {
      var id := r.scenarios[i];
      assert id in r.scenarios;
      assert r.scenarios[..i + 1] == r.scenarios[..i] + [id];
      after := after[id := after[id] + {r.id}];
    }
    assert r.scenarios[..|r.scenarios|] == r.scenarios;
  }

  /** Record the scenarios that name the path. */
  method AddRelated(hits: map<string, set<string>>, ids: set<string>) returns (after: map<string, set<string>>)
    requires ids <= hits.Keys
    ensures after.Keys == hits.Keys
    ensures forall id | id in hits :: after[id] == hits[id] + if id in ids then {RELATED_PATH} else {}
  {
    after := map id | id in hits :: hits[id] + if id in ids then {RELATED_PATH} else {};
  }

  /** What one rule adds for one path. */
  method ApplyRule(r: Rule, path: string, f: Findings) returns (after: Findings)
    requires r.effect.Targets? ==> forall id | id in r.scenarios :: id in f.hits
    ensures after.hits.Keys == f.hits.Keys && after.unmatched == f.unmatched
    ensures forall id | id in f.hits :: after.hits[id] == f.hits[id] + TargetHit(r, id, path)
    ensures after.full == f.full + RuleHit(r, Everything, path)
    ensures after.none == f.none + RuleHit(r, NoTest, path)
  {
    hide RuleMatches;
    after := f;
    if RuleMatches(r, path) {
      match r.effect {
        case Everything => after := f.(full := f.full + {r.id});
        case Targets =>
          var hits := AddTargets(f.hits, r);
          after := f.(hits := hits);
        case NoTest => after := f.(none := f.none + {r.id});
      }
    }
  }

  ghost predicate Scanned(after: Findings, f: Findings, pol: Policy, path: string, n: nat)
    requires n <= |pol.rules|
  {
    var some := pol.(rules := pol.rules[..n]);
    && after.hits.Keys == f.hits.Keys && after.unmatched == f.unmatched
    && (forall id | id in f.hits :: after.hits[id] == f.hits[id] + TargetRules(some, id, path))
    && after.full == f.full + RulesHit(some, Everything, path)
    && after.none == f.none + RulesHit(some, NoTest, path)
  }

  lemma ScannedNone(f: Findings, pol: Policy, path: string)
    ensures Scanned(f, f, pol, path, 0)
  {
  }

  lemma ScannedNext(now: Findings, next: Findings, f: Findings, pol: Policy, path: string, n: nat)
    requires n < |pol.rules| && Scanned(now, f, pol, path, n)
    requires next.hits.Keys == now.hits.Keys && next.unmatched == now.unmatched
    requires forall id | id in now.hits :: next.hits[id] == now.hits[id] + TargetHit(pol.rules[n], id, path)
    requires next.full == now.full + RuleHit(pol.rules[n], Everything, path)
    requires next.none == now.none + RuleHit(pol.rules[n], NoTest, path)
    ensures Scanned(next, f, pol, path, n + 1)
  {
    assert pol.rules[..n + 1] == pol.rules[..n] + [pol.rules[n]];
    OneMoreRule(pol, pol.rules[..n], pol.rules[n], path);
    hide TargetRules, RulesHit, TargetHit, RuleHit;
    var before := pol.(rules := pol.rules[..n]);
    forall id | id in f.hits
      ensures next.hits[id] == f.hits[id] + TargetRules(pol.(rules := pol.rules[..n + 1]), id, path)
    {
      assert id in now.hits.Keys;
      UnionAssociative(f.hits[id], TargetRules(before, id, path), TargetHit(pol.rules[n], id, path));
    }
    UnionAssociative(f.full, RulesHit(before, Everything, path), RuleHit(pol.rules[n], Everything, path));
    UnionAssociative(f.none, RulesHit(before, NoTest, path), RuleHit(pol.rules[n], NoTest, path));
  }

  lemma UnionAssociative(a: set<string>, b: set<string>, c: set<string>)
    ensures a + b + c == a + (b + c)
  {
  }

  method ScanRules(f: Findings, reg: Registry, pol: Policy, path: string) returns (after: Findings, matched: bool)
    requires WellFormed(reg, pol) && f.hits.Keys == IdSet(reg)
    ensures Scanned(after, f, pol, path, |pol.rules|)
    ensures matched <==> exists k | 0 <= k < |pol.rules| :: RuleMatches(pol.rules[k], path)
  {
    hide RuleMatches, TargetHit, RuleHit, TargetRules, RulesHit, IdSet;
    after, matched := f, false;
    ScannedNone(f, pol, path);
    for i := 0 to |pol.rules|
      invariant Scanned(after, f, pol, path, i)
      invariant matched <==> exists k | 0 <= k < i :: RuleMatches(pol.rules[k], path)
    {
      var r := pol.rules[i];
      if r.effect.Targets? {
        TargetsRegistered(reg, pol, r);
        assert forall id | id in r.scenarios :: id in after.hits.Keys;
      }
      var next := ApplyRule(r, path, after);
      ScannedNext(after, next, f, pol, path, i);
      after := next;
      if RuleMatches(r, path) {
        matched := true;
      }
    }
  }

  /** Hold one path against the index and every rule. */
  method ScanPath(f: Findings, index: map<string, set<string>>, reg: Registry, pol: Policy, ghost paths: set<string>, path: string)
    returns (after: Findings)
    requires WellFormed(reg, pol) && Found(f, reg, pol, paths) && Named(index, path) == Related(reg, path)
    ensures Found(after, reg, pol, paths + {path})
  {
    hide RuleMatches, Hits, Related, Unmatched, Matched, RulesHitBy, IdSet, TargetRules, RulesHit, WellFormed;
    RelatedRegistered(reg, path);
    MatchedBy(reg, pol, path);
    OneMorePath(reg, pol, paths, path);
    assert pol.(rules := pol.rules[..|pol.rules|]) == pol;
    var related := Named(index, path);
    var hits := AddRelated(f.hits, related);
    var scanned, matched := ScanRules(f.(hits := hits), reg, pol, path);
    after := scanned.(unmatched := f.unmatched + if matched || related != {} then {} else {path});
  }

  lemma RelatedRegistered(reg: Registry, path: string)
    ensures Related(reg, path) <= IdSet(reg)
  {
  }

  lemma TargetsRegistered(reg: Registry, pol: Policy, r: Rule)
    requires WellFormed(reg, pol) && r in pol.rules && r.effect.Targets?
    ensures forall id | id in r.scenarios :: id in IdSet(reg)
  {
    forall id | id in r.scenarios
      ensures id in IdSet(reg)
    {
      assert id in Ids(reg.scenarios);
      var i :| 0 <= i < |reg.scenarios| && Ids(reg.scenarios)[i] == id;
      InIdSet(reg, i);
    }
  }

  lemma MatchedBy(reg: Registry, pol: Policy, path: string)
    ensures Matched(reg, pol, path) <==> Related(reg, path) != {} || exists k | 0 <= k < |pol.rules| :: RuleMatches(pol.rules[k], path)
  {
    hide RuleMatches, Related;
    if r :| r in pol.rules && RuleMatches(r, path) {
      var k :| 0 <= k < |pol.rules| && pol.rules[k] == r;
    }
  }

  /** The manifest of what was found, decision by decision. */
  method Assemble(f: Findings, reg: Registry, pol: Policy, canonical: seq<Change>, base: string, head: string, k: Checks) returns (m: Manifest)
    requires Found(f, reg, pol, AllPaths(canonical))
    ensures m == Derived(reg, pol, canonical, base, head, k)
  {
    ghost var paths := AllPaths(canonical);
    hide AllPaths, Hits, Unmatched, RulesHitBy;
    var full := f.full + if f.unmatched != {} then {UNKNOWN_PATH} else {};
    var direct := set s | s in reg.scenarios && f.hits[s.id] != {} :: s.id;
    assert forall s | s in reg.scenarios :: s.id in IdSet(reg);
    assert direct == Direct(reg, pol, paths);
    var classification := Classify(full, direct, IdSet(reg));
    assert classification == ClassificationOf(reg, pol, paths);
    hide Direct, ClassificationOf;
    var decisions := [];
    for i := 0 to |reg.scenarios|
      invariant decisions == Decisions(reg, pol, paths, i)
    {
      InIdSet(reg, i);
      var id := reg.scenarios[i].id;
      decisions := decisions + [Decide(id, classification, f.hits[id], full, f.none)];
    }
    m := Signed(Manifest(base, head, reg.digest, pol.digest, classification, canonical, SortedListing(f.unmatched), decisions, ""), k);
  }

  /** `_derive_manifest`, loop by loop. */
  method DeriveManifest(reg: Registry, pol: Policy, cs: seq<Change>, base: string, head: string, k: Checks) returns (r: Result<Manifest, ImpactError>)
    requires WellFormed(reg, pol)
    ensures r == Derive(reg, pol, cs, base, head, k)
  {
    hide Derived, Canonical, Hex, WellFormed, RuleMatches;
    if !RevisionsOk(base, head) {
      return Err(RevisionInvalid);
    }
    var canonical := CanonicalChanges(cs, k.safe);
    if canonical.Err? {
      return Err(canonical.error);
    }
    var changes := canonical.value;
    var index := DirectPaths(reg);
    var f := Findings(map id | id in IdSet(reg) :: {}, {}, {}, {});
    assert AllPaths(changes[..0]) == {};
    for i := 0 to |changes|
      invariant Found(f, reg, pol, AllPaths(changes[..i]))
    {
      hide Found, Named, Related, AllPaths;
      var c := changes[i];
      PathsGrow(changes, i);
      f := ScanPath(f, index, reg, pol, AllPaths(changes[..i]), c.path);
      if c.previous.Some? {
        f := ScanPath(f, index, reg, pol, AllPaths(changes[..i]) + {c.path}, c.previous.value);
      }
    }
    assert changes[..|changes|] == changes;
    var m := Assemble(f, reg, pol, changes, base, head, k);
    r := Ok(m);
  }

  lemma PathsGrow(cs: seq<Change>, i: nat)
    requires i < |cs|
    ensures AllPaths(cs[..i + 1])
            == AllPaths(cs[..i]) + {cs[i].path} + if cs[i].previous.Some? then {cs[i].previous.value} else {}
  {
    assert cs[..i + 1] == cs[..i] + [cs[i]];
    assert cs[i] in cs[..i + 1];
    var c := cs[i];
    assert PathsOf(c)[0] == c.path && (c.previous.Some? ==> PathsOf(c)[1] == c.previous.value);
    forall x | x in AllPaths(cs[..i])
      ensures x in AllPaths(cs[..i + 1])
    {
      var d :| d in cs[..i] && x in PathsOf(d);
      assert d in cs[..i + 1];
    }
    forall x | x in AllPaths(cs[..i + 1])
      ensures x in AllPaths(cs[..i]) || x == c.path || (c.previous.Some? && x == c.previous.value)
    {
      var d :| d in cs[..i + 1] && x in PathsOf(d);
      assert d in cs[..i] || d == c;
    }
    assert c.path in PathsOf(c) && (c.previous.Some? ==> c.previous.value in PathsOf(c));
  }
}
