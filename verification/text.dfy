/** Python's `sep.join(parts)` on lists of strings. */
module Text {

  /** `sep.join(parts)`: the parts in order, with `sep` between neighbours;
      it holds every character of every part plus one separator per gap, and
      nothing for an empty list. */
  function Join(parts: seq<string>, sep: string): (s: string)
    ensures |parts| == 0 ==> s == ""
    ensures |parts| > 0 ==> |s| == TotalLength(parts) + (|parts| - 1) * |sep|
  {
    if |parts| == 0 then ""
    else if |parts| == 1 then parts[0]
    else
      assert (|parts| - 1) * |sep| == (|parts| - 2) * |sep| + |sep|;
      parts[0] + sep + Join(parts[1..], sep)
  }

  /** Total number of characters in the parts. */
  function TotalLength(parts: seq<string>): nat
  {
    if parts == [] then 0 else |parts[0]| + TotalLength(parts[1..])
  }

  /** Joining two non-empty lists is joining each and putting one
      separator between the results. */
  lemma {:induction false} JoinConcat(a: seq<string>, b: seq<string>, sep: string)
    requires |a| > 0 && |b| > 0
    ensures Join(a + b, sep) == Join(a, sep) + sep + Join(b, sep)
  {
    if |a| == 1 {
      assert (a + b)[1..] == b;
    } else {
      assert (a + b)[1..] == a[1..] + b;
      JoinConcat(a[1..], b, sep);
    }
  }

  /** Appending one part adds one separator and the part at the end. */
  lemma JoinAppend(parts: seq<string>, last: string, sep: string)
    requires |parts| > 0
    ensures Join(parts + [last], sep) == Join(parts, sep) + sep + last
  {
    JoinConcat(parts, [last], sep);
  }

  /** The first part opens the joined string and the last part closes it. */
  lemma {:induction false} JoinEnds(parts: seq<string>, sep: string)
    requires |parts| > 0
    ensures var s := Join(parts, sep);
            |parts[0]| <= |s| && s[..|parts[0]|] == parts[0]
            && |parts[|parts| - 1]| <= |s| && s[|s| - |parts[|parts| - 1]|..] == parts[|parts| - 1]
  {
    if |parts| > 1 {
      JoinEnds(parts[1..], sep);
      var rest := Join(parts[1..], sep);
      assert Join(parts, sep) == parts[0] + (sep + rest);
      assert parts[1..][|parts[1..]| - 1] == parts[|parts| - 1];
      assert Join(parts, sep) == (parts[0] + sep) + rest;
    }
  }
}
