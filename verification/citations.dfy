/** The human-readable citation attached to each retrieved chunk, and the
    `format_sources` step shared by both pipelines. */
module Citations {
  import opened Corpus

  datatype Option<T> = None | Some(value: T)

  const Opening := "Complaint "
  const ChunkMarker := " (chunk "
  const Closing := ")"

  /** `f"Complaint {row['complaint_id']} (chunk {row['chunk_id']})"`: the
      complaint id right after "Complaint ", the chunk id between " (chunk "
      and the closing parenthesis. */
  function Citation(c: Chunk): (s: string)
    ensures var n := |Opening| + |c.complaintId|;
            && |s| == n + |ChunkMarker| + |c.chunkId| + 1
            && s[..|Opening|] == "Complaint "
            && s[|Opening|..n] == c.complaintId
            && s[n..n + |ChunkMarker|] == " (chunk "
            && s[n + |ChunkMarker|..|s| - 1] == c.chunkId
            && s[|s| - 1] == ')'
  {
    Opening + c.complaintId + ChunkMarker + c.chunkId + Closing
  }

  /** One citation per row, in row order (the comprehension over
      `results.iterrows()`, or `results.apply(..., axis=1).tolist()`). */
  function CiteRows(rows: seq<Row>): (sources: seq<string>)
    ensures |sources| == |rows|
    ensures forall i :: 0 <= i < |rows| ==> sources[i] == Citation(rows[i].chunk)
  {
    if rows == [] then [] else [Citation(rows[0].chunk)] + CiteRows(rows[1..])
  }

  /** Index of the first space in `s`, or `|s|` when there is none. */
  function FirstSpace(s: string): (n: nat)
    ensures n <= |s|
    ensures n < |s| ==> s[n] == ' '
    ensures forall i :: 0 <= i < n ==> s[i] != ' '
  {
    if s == [] then 0
    else if s[0] == ' ' then 0
    else 1 + FirstSpace(s[1..])
  }

  /** Reads the complaint id and the chunk id back out of a citation; the
      complaint id runs up to the first space. */
  function ParseCitation(s: string): Option<(string, string)>
  {
    if |s| < |Opening| + |ChunkMarker| + |Closing|
       || s[..|Opening|] != Opening || s[|s| - 1] != ')' then None
    else
      var body := s[|Opening|..|s| - 1];
      var n := FirstSpace(body);
      if |body| - n < |ChunkMarker| || body[n..n + |ChunkMarker|] != ChunkMarker then None
      else Some((body[..n], body[n + |ChunkMarker|..]))
  }

  /** A citation gives back both ids of its chunk whenever the complaint id
      holds no space. */
  lemma CitationRoundTrip(c: Chunk)
    requires forall i :: 0 <= i < |c.complaintId| ==> c.complaintId[i] != ' '
    ensures ParseCitation(Citation(c)) == Some((c.complaintId, c.chunkId))
  {
    var s := Citation(c);
    var cid, chid := c.complaintId, c.chunkId;
    assert s == Opening + (cid + ChunkMarker + chid) + Closing;
    var body := s[|Opening|..|s| - 1];
    assert body == cid + ChunkMarker + chid;
    assert body[|cid|] == ' ';
    assert forall i :: 0 <= i < |cid| ==> body[i] == cid[i];
    assert FirstSpace(body) == |cid|;
    assert body[|cid|..|cid| + |ChunkMarker|] == ChunkMarker;
    assert body[..|cid|] == cid;
    assert body[|cid| + |ChunkMarker|..] == chid;
  }

  /** Two chunks with space-free complaint ids get the same citation only
      when they share both ids. */
  lemma CitationsDistinguishIds(a: Chunk, b: Chunk)
    requires forall i :: 0 <= i < |a.complaintId| ==> a.complaintId[i] != ' '
    requires forall i :: 0 <= i < |b.complaintId| ==> b.complaintId[i] != ' '
    requires Citation(a) == Citation(b)
    ensures a.complaintId == b.complaintId && a.chunkId == b.chunkId
  {
    CitationRoundTrip(a);
    CitationRoundTrip(b);
  }
}
