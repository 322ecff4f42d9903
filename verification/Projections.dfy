/**
 * Which columns a scan asks the worker for: the requested ones, then those only a filter reads, so
 * that the answer can be cut back to what the caller asked for.
 */
module Projections {
  import opened Wrappers

  type Column = seq<byte>

  /** The columns of a batch, given by their index in the bind schema. */
  predicate Within(columns: seq<i64>, width: nat) {
    forall i | 0 <= i < |columns| :: 0 <= columns[i] < width
  }

  function Project(full: seq<Column>, columns: seq<i64>): seq<Column>
    requires Within(columns, |full|)
  {
    seq(|columns|, i requires 0 <= i < |columns| => full[columns[i]])
  }

  /** The filter's columns that are not there already, each at its first mention. */
  function Added(out: seq<i64>, filters: seq<i64>): seq<i64>
    decreases |filters|
  {
    if filters == [] then []
    else if filters[0] in out then Added(out, filters[1..])
    else [filters[0]] + Added(out + [filters[0]], filters[1..])
  }

  method UnionProjection(projection: Option<seq<i64>>, filters: Option<seq<i64>>) returns (wire: Option<seq<i64>>)
    ensures wire == Wire(projection, filters)
  {
    if projection.None? {
      return None;
    }
    var out := projection.value;
    var columns := if filters.Some? then filters.value else [];
    for i := 0 to |columns|
      invariant out + Added(out, columns[i..]) == projection.value + Added(projection.value, columns)
    {
      assert columns[i..][0] == columns[i] && columns[i..][1..] == columns[i + 1..];
      if columns[i] !in out {
        assert out + ([columns[i]] + Added(out + [columns[i]], columns[i + 1..]))
            == out + [columns[i]] + Added(out + [columns[i]], columns[i + 1..]);
        out := out + [columns[i]];
      }
    }
    assert columns[|columns|..] == [] && out + [] == out;
    return Some(out);
  }

  /** What goes on the wire; asking for everything stays that. */
  function Wire(projection: Option<seq<i64>>, filters: Option<seq<i64>>): Option<seq<i64>> {
    if projection.None? then None
    else Some(projection.value + Added(projection.value, if filters.Some? then filters.value else []))
  }

  /** Keeps the columns of the caller's schema. */
  function Trim(batch: seq<Column>, keep: nat): seq<Column>
    requires keep <= |batch|
  {
    if keep == |batch| then batch else batch[..keep]
  }

  /** Where a column of the bind schema lands in the answer. */
  method WireIndexOf(wire: seq<i64>, column: i64) returns (index: Option<nat>)
    ensures index.Some? <==> column in wire
    ensures index.Some? ==> index.value < |wire| && wire[index.value] == column && column !in wire[..index.value]
  {
    for i := 0 to |wire|
      invariant column !in wire[..i]
    {
      if wire[i] == column {
        return Some(i);
      }
    }
    assert wire[..|wire|] == wire;
    return None;
  }

  lemma {:induction false} AddedWithin(out: seq<i64>, filters: seq<i64>, width: nat)
    requires Within(filters, width)
    ensures Within(Added(out, filters), width)
    decreases |filters|
  {
    if filters != [] {
      AddedWithin(out, filters[1..], width);
      AddedWithin(out + [filters[0]], filters[1..], width);
    }
  }

  /** Every filter column is there, and what is added is only that: each once, none that was there. */
  lemma {:induction false} AddedCovers(out: seq<i64>, filters: seq<i64>)
    ensures forall c | c in filters :: c in out || c in Added(out, filters)
    ensures forall c | c in Added(out, filters) :: c in filters && c !in out
    ensures Distinct(Added(out, filters))
    decreases |filters|
  {
    if filters != [] {
      var first := filters[0];
      var out' := if first in out then out else out + [first];
      assert first in out' && forall c | c in out :: c in out';
      AddedCovers(out', filters[1..]);
      forall c | c in filters
        ensures c in out || c in Added(out, filters)
      {
        if c != first {
          assert c in filters[1..];
        }
      }
      if first !in out {
        DistinctCons(first, Added(out', filters[1..]));
      }
    }
  }

  /** Where each of `added` is first mentioned, in ascending order. */
  predicate FirstMentions(added: seq<i64>, filters: seq<i64>, at: seq<nat>) {
    && |at| == |added|
    && (forall i | 0 <= i < |at| :: at[i] < |filters| && filters[at[i]] == added[i] && added[i] !in filters[..at[i]])
    && (forall i, j | 0 <= i < j < |at| :: at[i] < at[j])
  }

  lemma MentionsLater(added: seq<i64>, first: i64, filters: seq<i64>, at: seq<nat>, later: seq<nat>)
    requires FirstMentions(added, filters, at) && first !in added
    requires |later| == |at| && forall i | 0 <= i < |at| :: later[i] == at[i] + 1
    ensures FirstMentions(added, [first] + filters, later)
    ensures FirstMentions([first] + added, [first] + filters, [0] + later)
  {
    forall i | 0 <= i < |at|
      ensures added[i] !in ([first] + filters)[..later[i]]
    {
      assert ([first] + filters)[..later[i]] == [first] + filters[..at[i]];
      assert added[i] in added;
    }
  }

  /** What is added stands in the order in which the filter first mentions it. */
  lemma {:induction false} AddedInOrder(out: seq<i64>, filters: seq<i64>) returns (at: seq<nat>)
    ensures FirstMentions(Added(out, filters), filters, at)
    decreases |filters|
  {
    if filters == [] {
      at := [];
    } else {
      var first := filters[0];
      var out' := if first in out then out else out + [first];
      var more := AddedInOrder(out', filters[1..]);
      var later := seq(|more|, i requires 0 <= i < |more| => more[i] + 1);
      AddedCovers(out', filters[1..]);
      MentionsLater(Added(out', filters[1..]), first, filters[1..], more, later);
      assert filters == [first] + filters[1..];
      at := if first in out then later else [0] + later;
    }
  }

  predicate Distinct(columns: seq<i64>) {
    forall i, j | 0 <= i < j < |columns| :: columns[i] != columns[j]
  }

  lemma DistinctCons(c: i64, columns: seq<i64>)
    requires Distinct(columns) && c !in columns
    ensures Distinct([c] + columns)
  {
  }

  /** Cutting the answer back gives exactly the requested columns, in the order and number requested. */
  lemma TrimGivesRequested(full: seq<Column>, projection: seq<i64>, filters: Option<seq<i64>>)
    requires Within(projection, |full|) && (filters.Some? ==> Within(filters.value, |full|))
    ensures var wire := Wire(Some(projection), filters).value;
            && Within(wire, |full|) && |projection| <= |Project(full, wire)|
            && Trim(Project(full, wire), |projection|) == Project(full, projection)
  {
    var columns := if filters.Some? then filters.value else [];
    AddedWithin(projection, columns, |full|);
    var wire := projection + Added(projection, columns);
    assert Within(wire, |full|);
    assert Project(full, wire)[..|projection|] == Project(full, projection);
  }

  /** A filter finds each of its columns in the answer, with the values of that column. */
  lemma FilterColumnsArePresent(full: seq<Column>, projection: seq<i64>, filters: seq<i64>, column: i64)
    requires Within(projection, |full|) && Within(filters, |full|) && column in filters
    ensures var wire := Wire(Some(projection), Some(filters)).value;
            && Within(wire, |full|) && column in wire
            && forall i | 0 <= i < |wire| && wire[i] == column :: Project(full, wire)[i] == full[column]
  {
    AddedCovers(projection, filters);
    AddedWithin(projection, filters, |full|);
  }
}
