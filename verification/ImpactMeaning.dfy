/** What a derived manifest says, in terms of the changes, the registry and the rules alone. */
module ImpactMeaning {
  import opened Prelude
  import opened Sorting
  import opened Strings
  import opened ImpactSelector

  /** A path some change names, as the new or as the previous one. */
  ghost predicate Changed(cs: seq<Change>, path: string) {
    exists c | c in cs :: c.path == path || c.previous == Some(path)
  }

  /** The rule lists the path or one of its leading parts. */
  ghost predicate Covers(r: Rule, path: string) {
    path in r.paths || exists prefix | prefix in r.prefixes :: |prefix| <= |path| && path[..|prefix|] == prefix
  }

  ghost predicate ChangeCovered(cs: seq<Change>, r: Rule) {
    exists path :: Changed(cs, path) && Covers(r, path)
  }

  /** `id` names a rule of this effect that covers a change. */
  ghost predicate Applies(pol: Policy, cs: seq<Change>, effect: Effect, id: string) {
    exists r | r in pol.rules :: r.effect == effect && r.id == id && ChangeCovered(cs, r)
  }

  ghost predicate Known(reg: Registry, pol: Policy, path: string) {
    (exists s | s in reg.scenarios :: path in s.relatedPaths) || (exists r | r in pol.rules :: Covers(r, path))
  }

  ghost predicate NamesChange(cs: seq<Change>, s: Scenario) {
    exists path :: Changed(cs, path) && path in s.relatedPaths
  }

  /** `x` is a reason to run `s`: the scenario's own paths, or a rule that lists the scenario. */
  ghost predicate Hit(pol: Policy, cs: seq<Change>, s: Scenario, x: string) {
    || (x == RELATED_PATH && NamesChange(cs, s))
    || (exists r | r in pol.rules :: r.effect == Targets && r.id == x && s.id in r.scenarios && ChangeCovered(cs, r))
  }

  ghost predicate IsHit(pol: Policy, cs: seq<Change>, s: Scenario) {
    || NamesChange(cs, s)
    || (exists r | r in pol.rules :: r.effect == Targets && s.id in r.scenarios && ChangeCovered(cs, r))
  }

  ghost predicate SomeUnknown(reg: Registry, pol: Policy, cs: seq<Change>) {
    exists path :: Changed(cs, path) && !Known(reg, pol, path)
  }

  /** Every scenario must run: a rule says so, a path is unknown, or every scenario has a reason of its own. */
  ghost predicate Everywhere(reg: Registry, pol: Policy, cs: seq<Change>) {
    || (exists r | r in pol.rules :: r.effect == Everything && ChangeCovered(cs, r))
    || SomeUnknown(reg, pol, cs)
    || (forall s | s in reg.scenarios :: IsHit(pol, cs, s))
  }

  ghost predicate NoneHit(reg: Registry, pol: Policy, cs: seq<Change>) {
    forall s | s in reg.scenarios :: !IsHit(pol, cs, s)
  }

  /** The rule ids a decision lists. */
  ghost predicate Listed(reg: Registry, pol: Policy, cs: seq<Change>, s: Scenario, x: string) {
    if Everywhere(reg, pol, cs) then
      Applies(pol, cs, Everything, x) || (x == UNKNOWN_PATH && SomeUnknown(reg, pol, cs)) || Hit(pol, cs, s, x)
    else if IsHit(pol, cs, s) then Hit(pol, cs, s, x)
    else NoneHit(reg, pol, cs) && Applies(pol, cs, NoTest, x)
  }

  // ---------------------------------------------------------------- the selector's sets

  lemma PathsChanged(cs: seq<Change>, paths: set<string>)
    requires paths == AllPaths(Sort(cs, ChangeLeq))
    ensures forall path :: path in paths <==> Changed(cs, path)
  {
    SortPermutes(cs, ChangeLeq);
    hide Sort;
    forall path
      ensures path in paths <==> Changed(cs, path)
    {
      forall c | c in cs
        ensures path in PathsOf(c) <==> c.path == path || c.previous == Some(path)
      {
        assert PathsOf(c)[0] == c.path;
        assert c.previous.Some? ==> PathsOf(c)[1] == c.previous.value;
      }
    }
  }

  lemma SameMatch()
    ensures forall r: Rule, path :: RuleMatches(r, path) <==> Covers(r, path)
  {
    forall r: Rule, path
      ensures RuleMatches(r, path) <==> Covers(r, path)
    {
    }
  }

  lemma RulesMean(pol: Policy, effect: Effect, paths: set<string>, cs: seq<Change>)
    requires forall path :: path in paths <==> Changed(cs, path)
    ensures forall x :: x in RulesHitBy(pol, effect, paths) <==> Applies(pol, cs, effect, x)
  {
    hide Changed;
    forall x
      ensures x in RulesHitBy(pol, effect, paths) <==> Applies(pol, cs, effect, x)
    {
      if x in RulesHitBy(pol, effect, paths) {
        var path :| path in paths && x in RulesHit(pol, effect, path);
        var r :| r in pol.rules && r.effect == effect && RuleMatches(r, path) && r.id == x;
        assert Changed(cs, path) && Covers(r, path);
      }
      if Applies(pol, cs, effect, x) {
        var r :| r in pol.rules && r.effect == effect && r.id == x && ChangeCovered(cs, r);
        var path :| Changed(cs, path) && Covers(r, path);
        assert path in paths && x in RulesHit(pol, effect, path);
      }
    }
  }

  lemma RelatedMeans(reg: Registry, s: Scenario, path: string)
    requires Distinct(Ids(reg.scenarios)) && s in reg.scenarios
    ensures s.id in Related(reg, path) <==> path in s.relatedPaths
  {
    if s.id in Related(reg, path) {
      var t :| t in reg.scenarios && path in t.relatedPaths && t.id == s.id;
      var i :| 0 <= i < |reg.scenarios| && reg.scenarios[i] == s;
      var j :| 0 <= j < |reg.scenarios| && reg.scenarios[j] == t;
      assert Ids(reg.scenarios)[i] == Ids(reg.scenarios)[j];
    }
  }

  lemma TargetMeans(pol: Policy, s: Scenario, path: string, cs: seq<Change>, x: string)
    requires Changed(cs, path) && x in TargetRules(pol, s.id, path)
    ensures Hit(pol, cs, s, x)
  {
    hide Changed;
    var r :| r in pol.rules && r.effect.Targets? && RuleMatches(r, path) && s.id in r.scenarios && r.id == x;
    assert Covers(r, path);
    assert ChangeCovered(cs, r);
  }

  lemma HitsMean(reg: Registry, pol: Policy, s: Scenario, paths: set<string>, cs: seq<Change>)
    requires Distinct(Ids(reg.scenarios)) && s in reg.scenarios
    requires forall path :: path in paths <==> Changed(cs, path)
    ensures forall x :: x in Hits(reg, pol, s.id, paths) <==> Hit(pol, cs, s, x)
  {
    forall x
      ensures x in Hits(reg, pol, s.id, paths) <==> Hit(pol, cs, s, x)
    {
      hide Changed, Distinct, Related, TargetRules, RuleMatches, Covers;
      if x in Hits(reg, pol, s.id, paths) {
        var path :| path in paths && x in PathHits(reg, pol, s.id, path);
        RelatedMeans(reg, s, path);
        if x in TargetRules(pol, s.id, path) {
          TargetMeans(pol, s, path, cs, x);
        } else {
          assert x == RELATED_PATH && path in s.relatedPaths;
          assert NamesChange(cs, s);
        }
      }
      if Hit(pol, cs, s, x) {
        HitIsFound(reg, pol, s, paths, cs, x);
      }
    }
  }

  lemma HitIsFound(reg: Registry, pol: Policy, s: Scenario, paths: set<string>, cs: seq<Change>, x: string)
    requires Distinct(Ids(reg.scenarios)) && s in reg.scenarios
    requires forall path :: path in paths <==> Changed(cs, path)
    requires Hit(pol, cs, s, x)
    ensures x in Hits(reg, pol, s.id, paths)
  {
    hide Changed, Distinct, Related;
    if x == RELATED_PATH && NamesChange(cs, s) {
      var path :| Changed(cs, path) && path in s.relatedPaths;
      RelatedMeans(reg, s, path);
      assert path in paths && x in PathHits(reg, pol, s.id, path);
    } else {
      var r :| r in pol.rules && r.effect == Targets && r.id == x && s.id in r.scenarios && ChangeCovered(cs, r);
      var path :| Changed(cs, path) && Covers(r, path);
      assert path in paths && x in TargetRules(pol, s.id, path);
      assert x in PathHits(reg, pol, s.id, path);
    }
  }

  lemma HitMeans(pol: Policy, cs: seq<Change>, s: Scenario)
    ensures IsHit(pol, cs, s) <==> exists x :: Hit(pol, cs, s, x)
  {
    hide ChangeCovered, NamesChange;
    if IsHit(pol, cs, s) {
      if NamesChange(cs, s) {
        assert Hit(pol, cs, s, RELATED_PATH);
      } else {
        var r :| r in pol.rules && r.effect == Targets && s.id in r.scenarios && ChangeCovered(cs, r);
        assert Hit(pol, cs, s, r.id);
      }
    }
  }

  lemma UnmatchedMeans(reg: Registry, pol: Policy, paths: set<string>, cs: seq<Change>)
    requires forall path :: path in paths <==> Changed(cs, path)
    ensures forall path :: path in Unmatched(reg, pol, paths) <==> Changed(cs, path) && !Known(reg, pol, path)
  {
    hide Changed, Covers, RuleMatches;
    SameMatch();
    forall path
      ensures Matched(reg, pol, path) <==> Known(reg, pol, path)
    {
      if s :| s in reg.scenarios && path in s.relatedPaths {
        assert s.id in Related(reg, path);
      }
      if x :| x in Related(reg, path) {
        var s :| s in reg.scenarios && path in s.relatedPaths && s.id == x;
      }
    }
  }

  // ---------------------------------------------------------------- the manifest

  ghost predicate DecidesAs(d: Decision, reg: Registry, pol: Policy, cs: seq<Change>, s: Scenario) {
    && d.scenario == s.id
    && (d.selected <==> Everywhere(reg, pol, cs) || IsHit(pol, cs, s))
    && d.reason == (if Everywhere(reg, pol, cs) then FullRequired
                    else if IsHit(pol, cs, s) then DirectlyImpacted
                    else if NoneHit(reg, pol, cs) then NoneRequired else NotImpacted)
    && forall x :: x in d.rules <==> Listed(reg, pol, cs, s, x)
  }

  /** What the selector's sets say, once each of them is known to mean what it should. */
  lemma ClassMeans(reg: Registry, pol: Policy, paths: set<string>, cs: seq<Change>)
    requires Distinct(Ids(reg.scenarios)) && forall path :: path in paths <==> Changed(cs, path)
    ensures ClassificationOf(reg, pol, paths) == FullE2E <==> Everywhere(reg, pol, cs)
    ensures ClassificationOf(reg, pol, paths) == NoE2E <==> !Everywhere(reg, pol, cs) && NoneHit(reg, pol, cs)
  {
    FullMeans(reg, pol, paths, cs);
    DirectMeans(reg, pol, paths, cs);
    hide FullRules, Direct, IsHit, Changed, Distinct, ChangeCovered, SomeUnknown;
    var full, direct, all := FullRules(reg, pol, paths), Direct(reg, pol, paths), IdSet(reg);
    if direct == all {
      forall s | s in reg.scenarios
        ensures IsHit(pol, cs, s)
      {
        assert s.id in all;
      }
    }
    if forall s | s in reg.scenarios :: IsHit(pol, cs, s) {
      forall id | id in all
        ensures id in direct
      {
        var s :| s in reg.scenarios && s.id == id;
      }
      assert direct == all;
    }
    if direct == {} {
      assert NoneHit(reg, pol, cs);
    }
  }

  lemma FullMeans(reg: Registry, pol: Policy, paths: set<string>, cs: seq<Change>)
    requires forall path :: path in paths <==> Changed(cs, path)
    ensures forall x :: x in FullRules(reg, pol, paths) <==>
              Applies(pol, cs, Everything, x) || (x == UNKNOWN_PATH && SomeUnknown(reg, pol, cs))
    ensures FullRules(reg, pol, paths) != {} <==>
              (exists r | r in pol.rules :: r.effect == Everything && ChangeCovered(cs, r)) || SomeUnknown(reg, pol, cs)
  {
    RulesMean(pol, Everything, paths, cs);
    UnmatchedMeans(reg, pol, paths, cs);
    hide Changed, ChangeCovered, Known, RulesHitBy, Unmatched;
    var full := FullRules(reg, pol, paths);
    assert Unmatched(reg, pol, paths) != {} <==> SomeUnknown(reg, pol, cs) by {
      if path :| Changed(cs, path) && !Known(reg, pol, path) {
        assert path in Unmatched(reg, pol, paths);
      }
    }
    if full != {} {
      var x :| x in full;
    }
    if r :| r in pol.rules && r.effect == Everything && ChangeCovered(cs, r) {
      assert Applies(pol, cs, Everything, r.id) && r.id in full;
    }
    if SomeUnknown(reg, pol, cs) {
      assert UNKNOWN_PATH in full;
    }
  }

  lemma DirectMeans(reg: Registry, pol: Policy, paths: set<string>, cs: seq<Change>)
    requires Distinct(Ids(reg.scenarios)) && forall path :: path in paths <==> Changed(cs, path)
    ensures Direct(reg, pol, paths) <= IdSet(reg)
    ensures forall s | s in reg.scenarios :: s.id in Direct(reg, pol, paths) <==> IsHit(pol, cs, s)
  {
    forall s | s in reg.scenarios
      ensures s.id in Direct(reg, pol, paths) <==> IsHit(pol, cs, s)
    {
      HitsMean(reg, pol, s, paths, cs);
      HitMeans(pol, cs, s);
      hide Hits, Hit, IsHit, Changed;
      if x :| Hit(pol, cs, s, x) {
        assert x in Hits(reg, pol, s.id, paths);
      }
      if x :| x in Hits(reg, pol, s.id, paths) {
        assert Hit(pol, cs, s, x);
      }
      if s.id in Direct(reg, pol, paths) {
        var t :| t in reg.scenarios && Hits(reg, pol, t.id, paths) != {} && t.id == s.id;
      }
    }
  }

  lemma DecideMeans(id: string, classification: Classification, hits: set<string>, full: set<string>, none: set<string>)
    ensures var d := Decide(id, classification, hits, full, none);
            && d.scenario == id
            && (d.selected <==> classification == FullE2E || hits != {})
            && d.reason == (if classification == FullE2E then FullRequired
                            else if hits != {} then DirectlyImpacted
                            else if classification == NoE2E then NoneRequired else NotImpacted)
            && forall x :: x in d.rules <==>
                 if classification == FullE2E then x in full || x in hits
                 else if hits != {} then x in hits
                 else classification == NoE2E && x in none
  {
    hide SortedListing;
  }

  lemma SomeHit(pol: Policy, cs: seq<Change>, s: Scenario, hits: set<string>)
    requires forall x :: x in hits <==> Hit(pol, cs, s, x)
    ensures hits != {} <==> IsHit(pol, cs, s)
  {
    HitMeans(pol, cs, s);
    hide Hit, IsHit;
    if x :| x in hits { assert Hit(pol, cs, s, x); }
    if x :| Hit(pol, cs, s, x) { assert x in hits; }
  }

  lemma DecisionMeans(reg: Registry, pol: Policy, paths: set<string>, cs: seq<Change>, s: Scenario)
    requires Distinct(Ids(reg.scenarios)) && s in reg.scenarios && forall path :: path in paths <==> Changed(cs, path)
    ensures DecidesAs(DecisionFor(reg, pol, paths, s.id), reg, pol, cs, s)
  {
    hide Hits, FullRules, RulesHitBy, ClassificationOf, Decide, Hit, IsHit, Changed, Everywhere, SomeUnknown, Applies, Distinct, NoneHit;
    var hits, full, none := Hits(reg, pol, s.id, paths), FullRules(reg, pol, paths), RulesHitBy(pol, NoTest, paths);
    ClassMeans(reg, pol, paths, cs);
    FullMeans(reg, pol, paths, cs);
    HitsMean(reg, pol, s, paths, cs);
    RulesMean(pol, NoTest, paths, cs);
    SomeHit(pol, cs, s, hits);
    DecideMeans(s.id, ClassificationOf(reg, pol, paths), hits, full, none);
    NoneHitMeans(reg, pol, cs, s);
  }

  lemma NoneHitMeans(reg: Registry, pol: Policy, cs: seq<Change>, s: Scenario)
    requires s in reg.scenarios
    ensures NoneHit(reg, pol, cs) ==> !IsHit(pol, cs, s)
  {
    hide IsHit;
  }

  /**
   * What a derived manifest says, read off the changes, the registry and the
   * rules: which classification, which scenarios for which reason and on which
   * rules, and which paths nothing knows.
   */
  lemma ManifestMeans(reg: Registry, pol: Policy, cs: seq<Change>, base: string, head: string, k: Checks)
    requires WellFormed(reg, pol) && Derive(reg, pol, cs, base, head, k).Ok?
    ensures var m := Derive(reg, pol, cs, base, head, k).value;
            && (m.classification == FullE2E <==> Everywhere(reg, pol, cs))
            && (m.classification == NoE2E <==> !Everywhere(reg, pol, cs) && NoneHit(reg, pol, cs))
            && |m.decisions| == |reg.scenarios|
            && (forall i | 0 <= i < |m.decisions| :: DecidesAs(m.decisions[i], reg, pol, cs, reg.scenarios[i]))
            && (forall path :: path in m.unmatched <==> Changed(cs, path) && !Known(reg, pol, path))
            && multiset(m.changed) == multiset(cs)
            && m.base == base && m.head == head && m.registryDigest == reg.digest && m.policyDigest == pol.digest
            && m.digest == k.sign(m.(digest := ""))
  {
    hide Derive, Derived, DecisionFor, DecidesAs, ClassificationOf, Unmatched, Everywhere, NoneHit, Changed, Known, Sort, AllPaths, Distinct;
    var paths := AllPaths(Sort(cs, ChangeLeq));
    DerivedParts(reg, pol, cs, base, head, k);
    PathsChanged(cs, paths);
    UnmatchedMeans(reg, pol, paths, cs);
    ClassMeans(reg, pol, paths, cs);
    forall i | 0 <= i < |reg.scenarios|
      ensures DecidesAs(DecisionFor(reg, pol, paths, reg.scenarios[i].id), reg, pol, cs, reg.scenarios[i])
    {
      DecisionMeans(reg, pol, paths, cs, reg.scenarios[i]);
    }
  }

  /** The fields of a derived manifest. */
  lemma DerivedParts(reg: Registry, pol: Policy, cs: seq<Change>, base: string, head: string, k: Checks)
    requires Derive(reg, pol, cs, base, head, k).Ok?
    ensures var m := Derive(reg, pol, cs, base, head, k).value;
            var paths := AllPaths(Sort(cs, ChangeLeq));
            && m.classification == ClassificationOf(reg, pol, paths)
            && |m.decisions| == |reg.scenarios|
            && (forall i | 0 <= i < |m.decisions| :: m.decisions[i] == DecisionFor(reg, pol, paths, reg.scenarios[i].id))
            && (forall path :: path in m.unmatched <==> path in Unmatched(reg, pol, paths))
            && multiset(m.changed) == multiset(cs)
            && m.base == base && m.head == head && m.registryDigest == reg.digest && m.policyDigest == pol.digest
            && m.digest == k.sign(m.(digest := ""))
  {
    hide DecisionFor, ClassificationOf, Unmatched, Sort, AllPaths, ChangeFault;
    SortPermutes(cs, ChangeLeq);
  }
}
