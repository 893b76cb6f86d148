/** What the repository's queries select. For a search term without LIKE
    wildcards, the field search matches a record when one of the listed
    fields contains the term, the relation search when some related record
    does, and the listing query keeps a record when every requested filter
    holds of it and, if a search was requested, the search matches it. */
module SearchMeaning {
  import opened Php
  import opened Query
  import opened Filters
  import opened Repository

  ghost predicate FieldMatch(row: Row, field: string, t: string)
  {
    field in row.cols && Contains(row.cols[field], t)
  }

  ghost predicate AnyFieldMatch(row: Row, fields: seq<string>, t: string)
  {
    exists i :: 0 <= i < |fields| && FieldMatch(row, fields[i], t)
  }

  /** Some related record matches one of the fields; a relation listed with
      no fields matches any record that has a related record at all. */
  ghost predicate RelationMatch(row: Row, relation: string, fields: seq<string>, t: string)
  {
    relation in row.related &&
    exists r :: r in row.related[relation] && (fields == [] || AnyFieldMatch(r, fields, t))
  }

  ghost predicate AnyRelationMatch(row: Row, relations: RelationTable, t: string)
  {
    exists j :: 0 <= j < |relations| && RelationMatch(row, relations[j].0, relations[j].1, t)
  }

  /** With both tables empty the search group is empty and selects everything. */
  ghost predicate SearchMatch(row: Row, fields: seq<string>, relations: RelationTable, t: string)
  {
    (fields == [] && relations == []) || AnyFieldMatch(row, fields, t) || AnyRelationMatch(row, relations, t)
  }

  /** Every requested filter is registered, loadable, given array data, and its condition holds. */
  ghost predicate RequestedFiltersHold(registry: map<string, string>, classes: map<string, FilterClass>,
                                       es: Entries, row: Row, fs: FilterSemantics)
  {
    forall i :: 0 <= i < |es| ==>
      es[i].0 in registry && registry[es[i].0] in classes && es[i].1.Arr? &&
      fs(classes[registry[es[i].0]].name, es[i].1.entries, row)
  }

  // ---------------------------------------------------------------------
  // The clause lists, element by element.

  /** `searchField` adds one group per field, in table order. */
  lemma {:induction false} FieldGroupsAt(fields: seq<string>, t: string)
    ensures |FieldGroups(fields, t)| == |fields|
    ensures forall i :: 0 <= i < |fields| ==> FieldGroups(fields, t)[i] == FieldGroup(fields[i], t)
  {
    if fields != [] {
      FieldGroupsAt(fields[..|fields| - 1], t);
    }
  }

  lemma {:induction false} RelationLikesAt(fields: seq<string>, t: string)
    ensures |RelationLikes(fields, t)| == |fields|
    ensures forall i :: 0 <= i < |fields| ==> RelationLikes(fields, t)[i] == Like(Or, fields[i], Pattern(t))
  {
    if fields != [] {
      RelationLikesAt(fields[..|fields| - 1], t);
    }
  }

  /** `searchRelation` adds one `orWhereHas` per relation, in table order. */
  lemma {:induction false} RelationGroupsAt(relations: RelationTable, t: string)
    ensures |RelationGroups(relations, t)| == |relations|
    ensures forall j :: 0 <= j < |relations| ==>
      RelationGroups(relations, t)[j] == RelationGroup(relations[j].0, relations[j].1, t)
  {
    if relations != [] {
      RelationGroupsAt(relations[..|relations| - 1], t);
    }
  }

  // ---------------------------------------------------------------------
  // Meaning of the search clauses.

  lemma LikeMeaning(c: Connector, field: string, t: string, row: Row, fs: FilterSemantics)
    requires WildcardFree(t)
    ensures Holds(Like(c, field, Pattern(t)), row, fs) <==> FieldMatch(row, field, t)
  {
    if field in row.cols {
      PatternIsSubstringSearch(t, row.cols[field]);
    }
  }

  /** For a term without wildcards, the field search matches when some listed field contains the term. */
  lemma FieldSearchMeaning(fields: seq<string>, t: string, row: Row, fs: FilterSemantics)
    requires WildcardFree(t) && fields != []
    ensures Eval(FieldGroups(fields, t), row, fs) <==> AnyFieldMatch(row, fields, t)
  {
    var gs := FieldGroups(fields, t);
    FieldGroupsAt(fields, t);
    forall i | 0 <= i < |gs|
      ensures ConnOf(gs[i]) == Or && !EmptyGroup(gs[i])
      ensures Holds(gs[i], row, fs) <==> FieldMatch(row, fields[i], t)
    {
      var like := Like(Or, fields[i], Pattern(t));
      assert Holds(gs[i], row, fs) == Chain([like], Start, row, fs);
      assert Chain([like], Start, row, fs) == Chain([], Acc(false, Holds(like, row, fs)), row, fs);
      LikeMeaning(Or, fields[i], t, row, fs);
    }
    EvalAnyOf(gs, row, fs);
  }

  lemma LikesMeaning(fields: seq<string>, t: string, r: Row, fs: FilterSemantics)
    requires WildcardFree(t) && fields != []
    ensures Eval(RelationLikes(fields, t), r, fs) <==> AnyFieldMatch(r, fields, t)
  {
    var ls := RelationLikes(fields, t);
    RelationLikesAt(fields, t);
    forall i | 0 <= i < |ls|
      ensures ConnOf(ls[i]) == Or && !EmptyGroup(ls[i])
      ensures Holds(ls[i], r, fs) <==> FieldMatch(r, fields[i], t)
    {
      LikeMeaning(Or, fields[i], t, r, fs);
    }
    EvalAnyOf(ls, r, fs);
  }

  lemma RelationGroupMeaning(relation: string, fields: seq<string>, t: string, row: Row, fs: FilterSemantics)
    requires WildcardFree(t)
    ensures Holds(RelationGroup(relation, fields, t), row, fs) <==> RelationMatch(row, relation, fields, t)
  {
    var inner := Nested(And, RelationLikes(fields, t));
    RelationLikesAt(fields, t);
    forall r | relation in row.related && r in row.related[relation]
      ensures Chain([inner], Start, r, fs) <==> (fields == [] || AnyFieldMatch(r, fields, t))
    {
      if fields == [] {
        assert EmptyGroup(inner);
        assert Chain([inner], Start, r, fs) == Chain([], Start, r, fs);
      } else {
        assert Chain([inner], Start, r, fs) == Chain([], Acc(false, Holds(inner, r, fs)), r, fs);
        LikesMeaning(fields, t, r, fs);
      }
    }
  }

  /** For a term without wildcards, the relation search matches when one relation does. */
  lemma RelationSearchMeaning(relations: RelationTable, t: string, row: Row, fs: FilterSemantics)
    requires WildcardFree(t) && relations != []
    ensures Eval(RelationGroups(relations, t), row, fs) <==> AnyRelationMatch(row, relations, t)
  {
    var gs := RelationGroups(relations, t);
    RelationGroupsAt(relations, t);
    forall j | 0 <= j < |gs|
      ensures ConnOf(gs[j]) == Or && !EmptyGroup(gs[j])
      ensures Holds(gs[j], row, fs) <==> RelationMatch(row, relations[j].0, relations[j].1, t)
    {
      RelationGroupMeaning(relations[j].0, relations[j].1, t, row, fs);
    }
    EvalAnyOf(gs, row, fs);
  }

  /** The group `searchs` conjoins selects the records the field search or the
      relation search matches (everything when both tables are empty). */
  lemma SearchGroupMeaning(fields: seq<string>, relations: RelationTable, t: string, row: Row, fs: FilterSemantics)
    requires WildcardFree(t)
    ensures Holds(SearchGroup(fields, relations, t), row, fs) <==> SearchMatch(row, fields, relations, t)
  {
    var a := Nested(And, FieldGroups(fields, t));
    var b := Nested(Or, RelationGroups(relations, t));
    FieldGroupsAt(fields, t);
    RelationGroupsAt(relations, t);
    assert Holds(SearchGroup(fields, relations, t), row, fs) == Chain([a, b], Start, row, fs);
    assert [a, b][1..] == [b];
    if fields != [] {
      FieldSearchMeaning(fields, t, row, fs);
    }
    if relations != [] {
      RelationSearchMeaning(relations, t, row, fs);
    }
    if fields == [] {
      assert Chain([a, b], Start, row, fs) == Chain([b], Start, row, fs);
      if relations == [] {
        assert Chain([b], Start, row, fs) == Chain([], Start, row, fs);
      } else {
        assert Chain([b], Start, row, fs) == Chain([], Acc(false, Holds(b, row, fs)), row, fs);
      }
    } else {
      var like := Like(Or, fields[0], Pattern(t));
      assert a.inner[0] == Nested(Or, [like]);
      assert !EmptyGroup([like][0]);
      assert !EmptyGroup(a.inner[0]);
      var h := Holds(a, row, fs);
      assert Chain([a, b], Start, row, fs) == Chain([b], Acc(false, h), row, fs);
      if relations == [] {
        assert Chain([b], Acc(false, h), row, fs) == Chain([], Acc(false, h), row, fs);
      } else {
        assert Chain([b], Acc(false, h), row, fs) == Chain([], Acc(h, Holds(b, row, fs)), row, fs);
      }
    }
  }

  // ---------------------------------------------------------------------
  // Meaning of the listing query.

  lemma FilterWheresAreConjoined(registry: map<string, string>, classes: map<string, FilterClass>,
                                 v: Validator, filters: Value, row: Row, fs: FilterSemantics)
    requires FilterWheres(registry, classes, v, filters).Ok?
    ensures filters.Arr?
    ensures var ws := FilterWheres(registry, classes, v, filters).value;
      (forall i :: 0 <= i < |ws| ==> ConnOf(ws[i]) == And && !EmptyGroup(ws[i])) &&
      ((forall i :: 0 <= i < |ws| ==> Holds(ws[i], row, fs)) <==>
        RequestedFiltersHold(registry, classes, filters.entries, row, fs))
  {
    var es := filters.entries;
    var ws := FilterWheres(registry, classes, v, filters).value;
    FilterClausesAllSucceed(registry, classes, v, es);
    forall i | 0 <= i < |es|
      ensures es[i].0 in registry && registry[es[i].0] in classes && es[i].1.Arr?
      ensures ws[i] == Applied(classes[registry[es[i].0]].name, es[i].1.entries)
    {
      FilterStepSucceeds(registry, classes, v, es[i].0, es[i].1);
    }
  }

  /** Appending one more conjoined clause adds one more conjunct (none, when the clause is a dropped group). */
  lemma EvalAppendAnd(ws: seq<Clause>, s: Clause, row: Row, fs: FilterSemantics)
    requires forall i :: 0 <= i < |ws| ==> ConnOf(ws[i]) == And && !EmptyGroup(ws[i])
    requires ConnOf(s) == And
    ensures Eval(ws + [s], row, fs) <==> Eval(ws, row, fs) && Holds(s, row, fs)
  {
    if EmptyGroup(s) {
      ChainAppendDropped(ws, s, Start, row, fs);
      DroppedGroupHolds(s, row, fs);
      return;
    }
    var all := ws + [s];
    assert forall i :: 0 <= i < |ws| ==> all[i] == ws[i];
    assert all[|ws|] == s;
    EvalAllOf(all, row, fs);
    EvalAllOf(ws, row, fs);
  }

  /** The listing query keeps a record exactly when every requested filter
      holds of it and, when `search-key` is truthy, the search matches it. */
  lemma IndexMeaning(registry: map<string, string>, fields: seq<string>, relations: RelationTable,
                     env: Env, row: Row, fs: FilterSemantics)
    requires IndexWheres(registry, fields, relations, env).Ok?
    requires WildcardFree(SearchTerm(env.request))
    ensures Eval(IndexWheres(registry, fields, relations, env).value, row, fs) <==>
      (HasInput(env.request, "filters") ==>
        RequestedFiltersHold(registry, env.classes, Input(env.request, "filters").entries, row, fs)) &&
      (Truthy(Input(env.request, "search-key")) ==>
        SearchMatch(row, fields, relations, SearchTerm(env.request)))
  {
    var req := env.request;
    var ws: seq<Clause> := [];
    if HasInput(req, "filters") {
      FilterWheresAreConjoined(registry, env.classes, env.validator, Input(req, "filters"), row, fs);
      ws := FilterWheres(registry, env.classes, env.validator, Input(req, "filters")).value;
    }
    EvalAllOf(ws, row, fs);
    if Truthy(Input(req, "search-key")) {
      var term := SearchTerm(req);
      var s := SearchGroup(fields, relations, term);
      assert IndexWheres(registry, fields, relations, env).value == ws + [s];
      SearchGroupMeaning(fields, relations, term, row, fs);
      EvalAppendAnd(ws, s, row, fs);
    } else {
      assert IndexWheres(registry, fields, relations, env).value == ws;
    }
  }
}
