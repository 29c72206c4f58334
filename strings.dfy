/** The separator join that flattens a list of names or genres into one
    display string. */
module Strings {

  /** The separator every view uses between names and between genres. */
  const SEPARATOR: string := ", "

  /** `sep` placed between consecutive parts, in order: nothing for no
      parts, the part itself for one part. */
  function Join(parts: seq<string>, sep: string): string
    decreases |parts|
  {
    if |parts| == 0 then ""
    else if |parts| == 1 then parts[0]
    else parts[0] + sep + Join(parts[1..], sep)
  }

  /** No parts give the empty string, a single part gives that part. */
  lemma JoinShort(part: string, sep: string)
    ensures Join([], sep) == ""
    ensures Join([part], sep) == part
  {
  }

  /** The sum of the lengths of the parts. */
  function TotalLength(parts: seq<string>): nat
    decreases |parts|
  {
    if |parts| == 0 then 0 else |parts[0]| + TotalLength(parts[1..])
  }

  /** Where part `i` starts in the joined string: after all earlier parts
      and one separator behind each of them. */
  function Offset(parts: seq<string>, sep: string, i: nat): nat
    requires i <= |parts|
  {
    TotalLength(parts[..i]) + i * |sep|
  }

  /** The joined string holds every part and one separator between each
      two neighbours, and nothing else. */
  lemma {:induction false} JoinLength(parts: seq<string>, sep: string)
    requires |parts| > 0
    ensures |Join(parts, sep)| == TotalLength(parts) + (|parts| - 1) * |sep|
    decreases |parts|
  {
    if |parts| > 1 {
      JoinLength(parts[1..], sep);
      assert (|parts| - 1) * |sep| == (|parts[1..]| - 1) * |sep| + |sep|;
    }
  }

  /** Joining two non-empty lists is joining each and separating the two
      results once: the order of the parts is kept. */
  lemma {:induction false} JoinConcat(a: seq<string>, b: seq<string>, sep: string)
    requires |a| > 0 && |b| > 0
    ensures Join(a + b, sep) == Join(a, sep) + sep + Join(b, sep)
    decreases |a|
  {
    assert (a + b)[0] == a[0];
    if |a| == 1 {
      assert (a + b)[1..] == b;
    } else {
      assert (a + b)[1..] == a[1..] + b;
      JoinConcat(a[1..], b, sep);
    }
  }

  /** Appending one part adds a separator and that part at the end. */
  lemma JoinAppend(parts: seq<string>, last: string, sep: string)
    requires |parts| > 0
    ensures Join(parts + [last], sep) == Join(parts, sep) + sep + last
  {
    JoinConcat(parts, [last], sep);
  }

  lemma {:induction false} TotalLengthOfPrefix(parts: seq<string>, i: nat)
    requires 0 < i <= |parts|
    ensures TotalLength(parts[..i]) == |parts[0]| + TotalLength(parts[1..][..i - 1])
  {
    assert parts[..i][0] == parts[0];
    assert parts[..i][1..] == parts[1..][..i - 1];
  }

  /** Part `i` stands in the joined string at its offset, unchanged. */
  lemma {:induction false} JoinPieceAt(parts: seq<string>, sep: string, i: nat)
    requires i < |parts|
    ensures Offset(parts, sep, i) + |parts[i]| <= |Join(parts, sep)|
    ensures Join(parts, sep)[Offset(parts, sep, i)..Offset(parts, sep, i) + |parts[i]|] == parts[i]
    decreases i
  {
    if i == 0 {
      assert parts[..0] == [];
      if |parts| > 1 {
        assert Join(parts, sep) == parts[0] + (sep + Join(parts[1..], sep));
      }
    } else {
      var rest := parts[1..];
      JoinPieceAt(rest, sep, i - 1);
      TotalLengthOfPrefix(parts, i);
      assert i * |sep| == (i - 1) * |sep| + |sep|;
      assert Offset(parts, sep, i) == |parts[0]| + |sep| + Offset(rest, sep, i - 1);
      var head := parts[0] + sep;
      assert Join(parts, sep) == head + Join(rest, sep);
      assert rest[i - 1] == parts[i];
    }
  }
}
