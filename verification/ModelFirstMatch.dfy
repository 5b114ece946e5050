/** A closure pass over a record without provenance is declarative first match. */
module ModelFirstMatch {
  import opened Wrappers
  import opened Json
  import opened ModelFields
  import opened ModelClosure
  import opened ModelIdempotence

  predicate Applies(engine: Engine, rule: Rule, f: ModelField, providerId: string, normalizedId: string) {
    Fact(f) in rule.values && RuleMatches(engine, rule, providerId, normalizedId)
  }

  /** Rule `i` is the first in table order that assigns `f` and matches. */
  ghost predicate IsFirst(engine: Engine, rules: seq<Rule>, i: nat, f: ModelField, providerId: string, normalizedId: string) {
    && i < |rules|
    && Applies(engine, rules[i], f, providerId, normalizedId)
    && forall j :: 0 <= j < i ==> !Applies(engine, rules[j], f, providerId, normalizedId)
  }

  lemma {:induction false} FirstRuleIsFirst(engine: Engine, rules: seq<Rule>, f: ModelField, providerId: string, normalizedId: string)
    ensures match FirstRule(engine, rules, f, providerId, normalizedId)
            case Some(rule) => exists i: nat :: IsFirst(engine, rules, i, f, providerId, normalizedId) && rules[i] == rule
            case None => forall j :: 0 <= j < |rules| ==> !Applies(engine, rules[j], f, providerId, normalizedId)
  {
    if rules != [] {
      if Applies(engine, rules[0], f, providerId, normalizedId) {
        assert IsFirst(engine, rules, 0, f, providerId, normalizedId);
      } else {
        FirstRuleIsFirst(engine, rules[1..], f, providerId, normalizedId);
        match FirstRule(engine, rules[1..], f, providerId, normalizedId)
        case Some(rule) =>
          var i: nat :| IsFirst(engine, rules[1..], i, f, providerId, normalizedId) && rules[1..][i] == rule;
          assert forall j :: 1 <= j < |rules| ==> rules[j] == rules[1..][j - 1];
          assert IsFirst(engine, rules, i + 1, f, providerId, normalizedId);
        case None =>
          assert forall j :: 1 <= j < |rules| ==> rules[j] == rules[1..][j - 1];
      }
    }
  }

  function Settled(f: ModelField, cell: Option<Json>): Option<Json> {
    if f == RenderingHints then SettledHints(cell) else cell
  }

  /** A determinate fact keeps its canonical value and gets no provenance; an indeterminate one takes the
      canonical assignment of the first rule that assigns it and matches, and cites that rule. */
  lemma FreshFieldIsFirstMatch(engine: Engine, table: Table, r: Record, f: ModelField)
    requires Closes(engine, table, r) && r.provenance == map[]
    ensures var once := Closed(engine, table, r);
            var before := CanonicalFields(engine, r.fields);
            if !Indeterminate(f, Get(before, Fact(f))) then
              && CellOf(once.fields, Fact(f)) == Settled(f, CellOf(before, Fact(f)))
              && Fact(f) !in once.provenance
            else
              exists i: nat ::
                && IsFirst(engine, table.modelRules, i, f, ProviderId(before), NormalizedId(engine, before))
                && CellOf(once.fields, Fact(f)) == Settled(f, Some(Canonical(engine.encode, table.modelRules[i].values[Fact(f)])))
                && CellOf(once.provenance, Fact(f)) == Some(NewEntry(table.modelRules[i]))
  {
    var before := CanonicalFields(engine, r.fields);
    ClosedCellAt(engine, table, r, Fact(f));
    FirstRuleIsFirst(engine, table.modelRules, f, ProviderId(before), NormalizedId(engine, before));
  }

  /** The pass fails exactly when some indeterminate fact is assigned by no matching rule. */
  lemma FreshSuccessIff(engine: Engine, table: Table, r: Record)
    requires r.provenance == map[]
    ensures var before := CanonicalFields(engine, r.fields);
            Closes(engine, table, r) <==>
              forall f :: Indeterminate(f, Get(before, Fact(f))) ==>
                exists i: nat :: i < |table.modelRules| && Applies(engine, table.modelRules[i], f, ProviderId(before), NormalizedId(engine, before))
  {
    var before := CanonicalFields(engine, r.fields);
    forall f
      ensures !FieldOutcome(engine, table, r, f).Open? <==>
                (Indeterminate(f, Get(before, Fact(f))) ==>
                   exists i: nat :: i < |table.modelRules| && Applies(engine, table.modelRules[i], f, ProviderId(before), NormalizedId(engine, before)))
    {
      var first := FirstRule(engine, table.modelRules, f, ProviderId(before), NormalizedId(engine, before));
      FirstRuleIsFirst(engine, table.modelRules, f, ProviderId(before), NormalizedId(engine, before));
      if first.Some? {
        var i: nat :| IsFirst(engine, table.modelRules, i, f, ProviderId(before), NormalizedId(engine, before));
        assert Applies(engine, table.modelRules[i], f, ProviderId(before), NormalizedId(engine, before));
      }
    }
  }

  lemma LeftOpenAt(engine: Engine, table: Table, r: Record, f: ModelField)
    requires Closes(engine, table, r)
    ensures var once := Closed(engine, table, r);
            (Fact(f) !in once.provenance && Indeterminate(f, Get(once.fields, Fact(f)))) <==>
              f == RenderingHints && FieldOutcome(engine, table, r, f).Observed?
              && HasState(Get(CanonicalFields(engine, r.fields), Fact(f)))
  {
    var once := Closed(engine, table, r);
    ClosedCellAt(engine, table, r, Fact(f));
    EmptyHintsFacts(engine);
    assert Get(once.fields, Fact(f)) == ValueOf(FinalCell(engine, table, r, Fact(f)));
  }

  /** A successful pass leaves no fact indeterminate without provenance, unless it wiped an observed `state`. */
  lemma NothingLeftOpenIff(engine: Engine, table: Table, r: Record)
    requires Closes(engine, table, r)
    ensures var once := Closed(engine, table, r);
            (forall f :: Fact(f) !in once.provenance ==> !Indeterminate(f, Get(once.fields, Fact(f)))) <==>
              !(FieldOutcome(engine, table, r, RenderingHints).Observed?
                && HasState(Get(CanonicalFields(engine, r.fields), Fact(RenderingHints))))
  {
    var once := Closed(engine, table, r);
    LeftOpenAt(engine, table, r, RenderingHints);
    forall f | f != RenderingHints
      ensures Fact(f) !in once.provenance ==> !Indeterminate(f, Get(once.fields, Fact(f)))
    {
      LeftOpenAt(engine, table, r, f);
    }
  }
}
