/** The query builder the repository composes onto, kept syntactic: a query
    is its list of WHERE clauses and its list of orderings. A closure passed
    to `where`/`orWhere`/`whereHas` runs on a fresh builder whose clauses
    become one nested clause. An evaluation semantics for the clauses, with
    SQL's precedence of AND over OR and the framework's omission of empty
    nested groups, gives the meaning of what the repository builds. */
module Query {
  import opened Php

  datatype Connector = And | Or

  datatype Direction = Asc | Desc

  datatype Clause =
    | Nested(conn: Connector, inner: seq<Clause>)                // where(Closure) / orWhere(Closure)
    | Like(conn: Connector, column: string, pattern: string)    // where($column, 'LIKE', $pattern)
    | Has(conn: Connector, relation: string, inner: seq<Clause>) // whereHas / orWhereHas
    | Applied(filter: string, data: Entries)                    // the condition a filter's apply() adds

  datatype Order = Order(column: string, direction: Direction)

  /** The connector a clause joins with; a filter's condition is conjoined. */
  function ConnOf(c: Clause): Connector
  {
    if c.Applied? then And else c.conn
  }

  /** A nested group that adds no condition: every clause in it is itself
      such a group (none at all included). The framework counts a closure's
      clauses after the closure has run and leaves the group out of the SQL
      when there are none, so these groups are dropped from the inside out. */
  predicate EmptyGroup(c: Clause)
  {
    c.Nested? && forall i :: 0 <= i < |c.inner| ==> EmptyGroup(c.inner[i])
  }

  class Builder {
    var wheres: seq<Clause>
    var orders: seq<Order>

    /** `$model->query()`: a query with no conditions and no ordering. */
    constructor ()
      ensures wheres == [] && orders == []
    {
      wheres, orders := [], [];
    }

    method AddWhere(c: Clause)
      modifies this
      ensures wheres == old(wheres) + [c] && orders == old(orders)
    {
      wheres := wheres + [c];
    }

    /** `orderBy($column, $direction)`. */
    method OrderBy(column: string, direction: Direction)
      modifies this
      ensures orders == old(orders) + [Order(column, direction)] && wheres == old(wheres)
    {
      orders := orders + [Order(column, direction)];
    }
  }

  // ---------------------------------------------------------------------
  // Meaning of a clause list over one record.

  /** A record: its non-null columns as text, and its related records by relation name. */
  datatype Row = Row(cols: map<string, string>, related: map<string, seq<Row>>)

  /** What each filter's condition means; filters are defined outside the package. */
  type FilterSemantics = (string, Entries, Row) -> bool

  function Size(c: Clause): (n: nat)
    ensures n >= 1
  {
    match c
    case Nested(_, inner) => 1 + SizeAll(inner)
    case Has(_, _, inner) => 1 + SizeAll(inner)
    case _ => 1
  }

  function SizeAll(cs: seq<Clause>): nat
  {
    if cs == [] then 0 else Size(cs[0]) + SizeAll(cs[1..])
  }

  /** SQL LIKE: `%` matches any run of characters, `_` any one character. */
  ghost predicate Matches(p: string, s: string)
    decreases |p| + |s|
  {
    if p == [] then s == []
    else if p[0] == '%' then Matches(p[1..], s) || (s != [] && Matches(p, s[1..]))
    else s != [] && (p[0] == '_' || p[0] == s[0]) && Matches(p[1..], s[1..])
  }

  ghost predicate WildcardFree(t: string)
  {
    forall i :: 0 <= i < |t| ==> t[i] != '%' && t[i] != '_'
  }

  ghost predicate Contains(s: string, t: string)
  {
    exists k :: 0 <= k <= |s| && t <= s[k..]
  }

  ghost function Holds(c: Clause, row: Row, fs: FilterSemantics): bool
    decreases Size(c), 0
  {
    match c
    case Nested(_, inner) => Chain(inner, Start, row, fs)
    case Like(_, column, pattern) => column in row.cols && Matches(pattern, row.cols[column])
    case Has(_, relation, inner) =>
      relation in row.related &&
      exists r :: r in row.related[relation] && Chain(inner, Start, r, fs)
    case Applied(filter, data) => fs(filter, data, row)
  }

  /** Progress through a clause list: nothing yet, or the OR of the finished
      AND-runs together with the value of the current AND-run. */
  datatype Acc = Start | Acc(done: bool, run: bool)

  ghost function Chain(cs: seq<Clause>, acc: Acc, row: Row, fs: FilterSemantics): bool
    decreases SizeAll(cs), 1
  {
    if cs == [] then (match acc case Start => true case Acc(d, r) => d || r)
    else if EmptyGroup(cs[0]) then Chain(cs[1..], acc, row, fs)
    else
      var h := Holds(cs[0], row, fs);
      var next := match acc
        case Start => Acc(false, h)
        case Acc(d, r) => if ConnOf(cs[0]) == Or then Acc(d || r, h) else Acc(d, r && h);
      Chain(cs[1..], next, row, fs)
  }

  /** Whether a record satisfies a WHERE made of these clauses (none: every record). */
  ghost predicate Eval(cs: seq<Clause>, row: Row, fs: FilterSemantics)
  {
    Chain(cs, Start, row, fs)
  }

  // ---------------------------------------------------------------------
  // LIKE '%term%' is substring search for a term without wildcards.

  lemma {:induction false} PercentMatchesAll(s: string)
    ensures Matches("%", s)
  {
    if s != [] {
      PercentMatchesAll(s[1..]);
    }
  }

  lemma {:induction false} TrailingPercent(t: string, s: string)
    requires WildcardFree(t)
    ensures Matches(t + "%", s) <==> t <= s
  {
    if t == [] {
      assert t + "%" == "%";
      PercentMatchesAll(s);
    } else {
      var p := t + "%";
      assert p[0] == t[0] && p[1..] == t[1..] + "%";
      assert t[0] != '%' && t[0] != '_';
      if s != [] {
        TrailingPercent(t[1..], s[1..]);
        if t <= s {
          assert t[1..] <= s[1..];
        }
        if t[1..] <= s[1..] && t[0] == s[0] {
          assert t == [t[0]] + t[1..] && s == [s[0]] + s[1..];
        }
      }
    }
  }

  lemma {:induction false} LeadingPercent(q: string, s: string)
    ensures Matches("%" + q, s) <==> exists k :: 0 <= k <= |s| && Matches(q, s[k..])
  {
    var p := "%" + q;
    assert p[0] == '%' && p[1..] == q;
    assert s[0..] == s;
    if s != [] {
      LeadingPercent(q, s[1..]);
      if Matches(p, s[1..]) {
        var k :| 0 <= k <= |s[1..]| && Matches(q, s[1..][k..]);
        assert s[1..][k..] == s[k + 1..];
      }
      if exists k :: 0 <= k <= |s| && Matches(q, s[k..]) {
        var k :| 0 <= k <= |s| && Matches(q, s[k..]);
        if k > 0 {
          assert s[1..][k - 1..] == s[k..];
        }
      }
    } else {
      if exists k :: 0 <= k <= |s| && Matches(q, s[k..]) {
        var k :| 0 <= k <= |s| && Matches(q, s[k..]);
        assert k == 0;
      }
    }
  }

  /** The pattern `'%' . $term . '%'`. */
  function Pattern(term: string): (p: string)
    ensures |p| == |term| + 2
    ensures p[0] == '%' && p[|p| - 1] == '%'
    ensures p[1..|p| - 1] == term
  {
    "%" + term + "%"
  }

  lemma PatternIsSubstringSearch(t: string, s: string)
    requires WildcardFree(t)
    ensures Matches(Pattern(t), s) <==> Contains(s, t)
  {
    assert Pattern(t) == "%" + (t + "%");
    LeadingPercent(t + "%", s);
    forall k | 0 <= k <= |s|
      ensures Matches(t + "%", s[k..]) <==> t <= s[k..]
    {
      TrailingPercent(t, s[k..]);
    }
  }

  // ---------------------------------------------------------------------
  // Chains of one connector.

  lemma {:induction false} ChainAnyOf(cs: seq<Clause>, d: bool, r: bool, row: Row, fs: FilterSemantics)
    requires forall i :: 0 <= i < |cs| ==> ConnOf(cs[i]) == Or && !EmptyGroup(cs[i])
    ensures Chain(cs, Acc(d, r), row, fs) == (d || r || exists i :: 0 <= i < |cs| && Holds(cs[i], row, fs))
  {
    if cs != [] {
      ChainAnyOf(cs[1..], d || r, Holds(cs[0], row, fs), row, fs);
      if exists i :: 0 <= i < |cs[1..]| && Holds(cs[1..][i], row, fs) {
        var i :| 0 <= i < |cs[1..]| && Holds(cs[1..][i], row, fs);
        assert Holds(cs[i + 1], row, fs);
      }
      if exists i :: 0 <= i < |cs| && Holds(cs[i], row, fs) {
        var i :| 0 <= i < |cs| && Holds(cs[i], row, fs);
        if i > 0 {
          assert Holds(cs[1..][i - 1], row, fs);
        }
      }
    }
  }

  /** A list of OR-connected, non-empty clauses holds when one of them does. */
  lemma EvalAnyOf(cs: seq<Clause>, row: Row, fs: FilterSemantics)
    requires cs != []
    requires forall i :: 0 <= i < |cs| ==> ConnOf(cs[i]) == Or && !EmptyGroup(cs[i])
    ensures Eval(cs, row, fs) == exists i :: 0 <= i < |cs| && Holds(cs[i], row, fs)
  {
    ChainAnyOf(cs[1..], false, Holds(cs[0], row, fs), row, fs);
    if exists i :: 0 <= i < |cs[1..]| && Holds(cs[1..][i], row, fs) {
      var i :| 0 <= i < |cs[1..]| && Holds(cs[1..][i], row, fs);
      assert Holds(cs[i + 1], row, fs);
    }
    if exists i :: 0 <= i < |cs| && Holds(cs[i], row, fs) {
      var i :| 0 <= i < |cs| && Holds(cs[i], row, fs);
      if i > 0 {
        assert Holds(cs[1..][i - 1], row, fs);
      }
    }
  }

  lemma {:induction false} ChainAllOf(cs: seq<Clause>, r: bool, row: Row, fs: FilterSemantics)
    requires forall i :: 0 <= i < |cs| ==> ConnOf(cs[i]) == And && !EmptyGroup(cs[i])
    ensures Chain(cs, Acc(false, r), row, fs) == (r && forall i :: 0 <= i < |cs| ==> Holds(cs[i], row, fs))
  {
    if cs != [] {
      ChainAllOf(cs[1..], r && Holds(cs[0], row, fs), row, fs);
      assert forall i :: 0 <= i < |cs[1..]| ==> cs[1..][i] == cs[i + 1];
    }
  }

  /** A list of AND-connected, non-empty clauses holds when all of them do. */
  lemma EvalAllOf(cs: seq<Clause>, row: Row, fs: FilterSemantics)
    requires forall i :: 0 <= i < |cs| ==> ConnOf(cs[i]) == And && !EmptyGroup(cs[i])
    ensures Eval(cs, row, fs) == forall i :: 0 <= i < |cs| ==> Holds(cs[i], row, fs)
  {
    if cs != [] {
      ChainAllOf(cs[1..], Holds(cs[0], row, fs), row, fs);
      assert forall i :: 0 <= i < |cs[1..]| ==> cs[1..][i] == cs[i + 1];
    }
  }

  // ---------------------------------------------------------------------
  // Dropped groups.

  /** Clauses that are all dropped leave the evaluation where it was. */
  lemma {:induction false} ChainOfDropped(cs: seq<Clause>, acc: Acc, row: Row, fs: FilterSemantics)
    requires forall i :: 0 <= i < |cs| ==> EmptyGroup(cs[i])
    ensures Chain(cs, acc, row, fs) == Chain([], acc, row, fs)
  {
    if cs != [] {
      assert EmptyGroup(cs[0]);
      ChainOfDropped(cs[1..], acc, row, fs);
    }
  }

  /** A dropped group, read on its own, excludes no record. */
  lemma DroppedGroupHolds(c: Clause, row: Row, fs: FilterSemantics)
    requires EmptyGroup(c)
    ensures Holds(c, row, fs)
  {
    ChainOfDropped(c.inner, Start, row, fs);
  }

  /** Appending a dropped group does not change what a clause list selects. */
  lemma {:induction false} ChainAppendDropped(cs: seq<Clause>, c: Clause, acc: Acc, row: Row, fs: FilterSemantics)
    requires EmptyGroup(c)
    ensures Chain(cs + [c], acc, row, fs) == Chain(cs, acc, row, fs)
  {
    if cs == [] {
      assert [c][1..] == [];
    } else {
      assert (cs + [c])[0] == cs[0] && (cs + [c])[1..] == cs[1..] + [c];
      if EmptyGroup(cs[0]) {
        ChainAppendDropped(cs[1..], c, acc, row, fs);
      } else {
        var h := Holds(cs[0], row, fs);
        var next := match acc
          case Start => Acc(false, h)
          case Acc(d, r) => if ConnOf(cs[0]) == Or then Acc(d || r, h) else Acc(d, r && h);
        ChainAppendDropped(cs[1..], c, next, row, fs);
      }
    }
  }
}
