/** The chunk table, the nearest-neighbour hits returned by the vector
    search, and the two steps both pipelines apply to them: joining each hit
    to its corpus row (`df_chunks.iloc[indices[0]]` plus the `distance`
    column) and dropping the rows at or beyond the relevance threshold. */
module Corpus {

  /** One row of the chunk table. The ids are kept as the text that an
      f-string renders them to. */
  datatype Chunk = Chunk(complaintId: string, chunkId: string, text: string)

  /** One nearest-neighbour hit: an ordinal position in the chunk table and
      the distance of that chunk's embedding from the query embedding. */
  datatype Hit = Hit(position: int, distance: real)

  /** A chunk together with the distance of the hit that selected it. */
  datatype Row = Row(chunk: Chunk, distance: real)

  /** Hits whose distance is not below this are dropped. */
  const Threshold: real := 1.2

  predicate Relevant(distance: real)
  {
    distance < Threshold
  }

  /** Every hit names an existing row of a table with `size` rows. */
  predicate PositionsIn(hits: seq<Hit>, size: nat)
  {
    forall i :: 0 <= i < |hits| ==> 0 <= hits[i].position < size
  }

  predicate HitsAscending(hits: seq<Hit>)
  {
    forall i, j :: 0 <= i < j < |hits| ==> hits[i].distance <= hits[j].distance
  }

  predicate Ascending(rows: seq<Row>)
  {
    forall i, j :: 0 <= i < j < |rows| ==> rows[i].distance <= rows[j].distance
  }

  /** `s` is what remains of `t` after deleting some elements, the rest
      keeping their order. */
  predicate SubseqOf<T(==)>(s: seq<T>, t: seq<T>)
    decreases |t|
  {
    if s == [] then true
    else if t == [] then false
    else if s[0] == t[0] then SubseqOf(s[1..], t[1..])
    else SubseqOf(s, t[1..])
  }

  /** The selected rows with the distance column attached: row `i` is the
      chunk at the `i`-th hit's position paired with the `i`-th distance. */
  function JoinRows(hits: seq<Hit>, corpus: seq<Chunk>): (rows: seq<Row>)
    requires PositionsIn(hits, |corpus|)
    ensures |rows| == |hits|
    ensures forall i :: 0 <= i < |hits| ==>
              rows[i] == Row(corpus[hits[i].position], hits[i].distance)
  {
    if hits == [] then []
    else [Row(corpus[hits[0].position], hits[0].distance)] + JoinRows(hits[1..], corpus)
  }

  /** `results[results["distance"] < 1.2]`. */
  function KeepRelevant(rows: seq<Row>): (kept: seq<Row>)
    ensures |kept| <= |rows|
    ensures forall j :: 0 <= j < |kept| ==> Relevant(kept[j].distance)
    ensures forall x :: x in kept <==> x in rows && Relevant(x.distance)
  {
    if rows == [] then []
    else if Relevant(rows[0].distance) then [rows[0]] + KeepRelevant(rows[1..])
    else KeepRelevant(rows[1..])
  }

  /** The hits that survive the threshold, in search order. */
  function RelevantHits(hits: seq<Hit>): (kept: seq<Hit>)
    ensures |kept| <= |hits|
    ensures forall x :: x in kept <==> x in hits && Relevant(x.distance)
  {
    if hits == [] then []
    else if Relevant(hits[0].distance) then [hits[0]] + RelevantHits(hits[1..])
    else RelevantHits(hits[1..])
  }

  /** The `text` column, in row order. */
  function Texts(rows: seq<Row>): (texts: seq<string>)
    ensures |texts| == |rows|
    ensures forall i :: 0 <= i < |rows| ==> texts[i] == rows[i].chunk.text
  {
    if rows == [] then [] else [rows[0].chunk.text] + Texts(rows[1..])
  }

  /** Filtering the joined rows by distance is joining the hits that pass
      the threshold: each kept row still carries its own hit's distance. */
  lemma {:induction false} FilterCommutesWithJoin(hits: seq<Hit>, corpus: seq<Chunk>)
    requires PositionsIn(hits, |corpus|)
    ensures PositionsIn(RelevantHits(hits), |corpus|)
    ensures KeepRelevant(JoinRows(hits, corpus)) == JoinRows(RelevantHits(hits), corpus)
  {
    if hits != [] {
      var rows := JoinRows(hits, corpus);
      assert rows[1..] == JoinRows(hits[1..], corpus);
      FilterCommutesWithJoin(hits[1..], corpus);
      if Relevant(hits[0].distance) {
        var kept := RelevantHits(hits);
        assert kept == [hits[0]] + RelevantHits(hits[1..]);
        assert kept[1..] == RelevantHits(hits[1..]);
      }
    }
  }

  /** The filter deletes rows and never reorders the ones it keeps. */
  lemma {:induction false} KeepRelevantIsSubsequence(rows: seq<Row>)
    ensures SubseqOf(KeepRelevant(rows), rows)
  {
    if rows != [] {
      KeepRelevantIsSubsequence(rows[1..]);
      var rest := KeepRelevant(rows[1..]);
      if Relevant(rows[0].distance) {
        assert ([rows[0]] + rest)[1..] == rest;
      } else if rest != [] {
        assert rest[0] != rows[0];
      }
    }
  }

  /** A relevant row is kept as many times as it occurs; an irrelevant row
      is never kept. With KeepRelevantIsSubsequence this pins the filter
      down exactly. */
  lemma {:induction false} KeepRelevantCounts(rows: seq<Row>)
    ensures forall x :: multiset(KeepRelevant(rows))[x] ==
              if Relevant(x.distance) then multiset(rows)[x] else 0
  {
    if rows != [] {
      KeepRelevantCounts(rows[1..]);
      assert rows == [rows[0]] + rows[1..];
    }
  }

  /** Rows that arrive in ascending distance leave in ascending distance. */
  lemma {:induction false} KeepRelevantAscending(rows: seq<Row>)
    requires Ascending(rows)
    ensures Ascending(KeepRelevant(rows))
  {
    if rows != [] {
      KeepRelevantAscending(rows[1..]);
      var rest := KeepRelevant(rows[1..]);
      if Relevant(rows[0].distance) {
        forall j | 0 <= j < |rest|
          ensures rows[0].distance <= rest[j].distance
        {
          assert rest[j] in rows[1..];
        }
      }
    }
  }

  /** The threshold filter applied after the join, with everything it
      guarantees: the kept rows are exactly the joined rows of the hits
      below the threshold, in search order, each with its own distance, and
      an ascending search stays ascending. */
  lemma FilteredJoin(hits: seq<Hit>, corpus: seq<Chunk>)
    requires PositionsIn(hits, |corpus|)
    ensures var kept := KeepRelevant(JoinRows(hits, corpus));
            && PositionsIn(RelevantHits(hits), |corpus|)
            && kept == JoinRows(RelevantHits(hits), corpus)
            && SubseqOf(kept, JoinRows(hits, corpus))
            && (HitsAscending(hits) ==> Ascending(kept))
  {
    var rows := JoinRows(hits, corpus);
    FilterCommutesWithJoin(hits, corpus);
    KeepRelevantIsSubsequence(rows);
    if HitsAscending(hits) {
      KeepRelevantAscending(rows);
    }
  }

  /** Filtering hits that all pass the threshold changes nothing. */
  lemma {:induction false} RelevantHitsOfAllRelevant(hits: seq<Hit>)
    requires forall i :: 0 <= i < |hits| ==> Relevant(hits[i].distance)
    ensures RelevantHits(hits) == hits
  {
    if hits != [] {
      RelevantHitsOfAllRelevant(hits[1..]);
    }
  }
}
