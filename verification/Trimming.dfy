/** `strings.TrimSpace`, and the one-argument SQLite `TRIM` that strips ASCII spaces only. */
module Trimming {

  /** The Unicode White_Space characters. */
  predicate IsSpace(c: char) {
    || '\t' <= c <= '\r' || c == ' ' || c == '\U{85}' || c == '\U{A0}' || c == '\U{1680}'
    || '\U{2000}' <= c <= '\U{200A}' || c == '\U{2028}' || c == '\U{2029}' || c == '\U{202F}'
    || c == '\U{205F}' || c == '\U{3000}'
  }

  predicate IsAsciiSpace(c: char) { c == ' ' }

  function DropLeading(s: string, strip: char -> bool): string {
    if s != "" && strip(s[0]) then DropLeading(s[1..], strip) else s
  }

  function DropTrailing(s: string, strip: char -> bool): string {
    if s != "" && strip(s[|s| - 1]) then DropTrailing(s[..|s| - 1], strip) else s
  }

  function TrimBy(s: string, strip: char -> bool): string {
    DropTrailing(DropLeading(s, strip), strip)
  }

  function TrimSpace(s: string): string { TrimBy(s, IsSpace) }

  function SqlTrim(s: string): string { TrimBy(s, IsAsciiSpace) }

  predicate NoEdge(s: string, strip: char -> bool) {
    s != "" ==> !strip(s[0]) && !strip(s[|s| - 1])
  }

  lemma {:induction false} LeadingDropped(s: string, strip: char -> bool)
    ensures var r := DropLeading(s, strip); r != "" ==> !strip(r[0])
  {
    if s != "" && strip(s[0]) {
      LeadingDropped(s[1..], strip);
    }
  }

  lemma {:induction false} TrailingDropped(s: string, strip: char -> bool)
    ensures var r := DropTrailing(s, strip); r <= s && (r != "" ==> !strip(r[|r| - 1]))
  {
    if s != "" && strip(s[|s| - 1]) {
      TrailingDropped(s[..|s| - 1], strip);
    }
  }

  lemma TrimLeavesNoEdge(s: string, strip: char -> bool)
    ensures NoEdge(TrimBy(s, strip), strip)
  {
    LeadingDropped(s, strip);
    TrailingDropped(DropLeading(s, strip), strip);
  }

  /** Trimming twice is trimming once, also when the second trim is SQLite's. */
  lemma TrimIdempotent(s: string)
    ensures TrimSpace(TrimSpace(s)) == TrimSpace(s)
    ensures SqlTrim(TrimSpace(s)) == TrimSpace(s)
    ensures SqlTrim(SqlTrim(s)) == SqlTrim(s)
  {
    TrimLeavesNoEdge(s, IsSpace);
    TrimLeavesNoEdge(s, IsAsciiSpace);
  }

  lemma {:induction false} WiderLeading(s: string, strip: char -> bool)
    requires s == "" || !strip(s[0])
    ensures DropLeading(s, strip) == s
  {
  }

  /** Trimming what has no edge to trim leaves it as it is. */
  lemma NoEdgeIsTrimmed(s: string, strip: char -> bool)
    requires NoEdge(s, strip)
    ensures TrimBy(s, strip) == s
  {
    WiderLeading(s, strip);
  }

  predicate AllStripped(s: string, strip: char -> bool) { forall c :: c in s ==> strip(c) }

  lemma OneMoreStripped(c: char, s: string, strip: char -> bool)
    requires strip(c) && AllStripped(s, strip)
    ensures AllStripped([c] + s, strip) && AllStripped(s + [c], strip)
  {
  }

  lemma {:induction false} DropLeadingSplits(s: string, strip: char -> bool) returns (edge: string)
    ensures s == edge + DropLeading(s, strip) && AllStripped(edge, strip)
  {
    if s != "" && strip(s[0]) {
      var rest := DropLeadingSplits(s[1..], strip);
      edge := [s[0]] + rest;
      OneMoreStripped(s[0], rest, strip);
      Reassembled([s[0]], s[1..], rest, DropLeading(s[1..], strip));
    } else {
      edge := "";
    }
  }

  lemma Reassembled(first: string, later: string, edge: string, rest: string)
    requires later == edge + rest
    ensures first + later == (first + edge) + rest
  {
  }

  lemma {:induction false} DropTrailingSplits(s: string, strip: char -> bool) returns (edge: string)
    ensures s == DropTrailing(s, strip) + edge && AllStripped(edge, strip)
  {
    if s != "" && strip(s[|s| - 1]) {
      var rest := DropTrailingSplits(s[..|s| - 1], strip);
      edge := rest + [s[|s| - 1]];
      OneMoreStripped(s[|s| - 1], rest, strip);
      assert s == s[..|s| - 1] + [s[|s| - 1]];
      Reassembled(DropTrailing(s[..|s| - 1], strip), rest + [s[|s| - 1]], rest, [s[|s| - 1]]);
    } else {
      edge := "";
    }
  }

  lemma {:induction false} DropLeadingEdge(edge: string, s: string, strip: char -> bool)
    requires AllStripped(edge, strip)
    ensures DropLeading(edge + s, strip) == DropLeading(s, strip)
  {
    if edge == "" {
      assert edge + s == s;
    } else {
      assert edge[0] in edge && (edge + s)[0] == edge[0] && (edge + s)[1..] == edge[1..] + s;
      DropLeadingEdge(edge[1..], s, strip);
    }
  }

  lemma {:induction false} DropTrailingEdge(s: string, edge: string, strip: char -> bool)
    requires AllStripped(edge, strip)
    ensures DropTrailing(s + edge, strip) == DropTrailing(s, strip)
  {
    if edge == "" {
      assert s + edge == s;
    } else {
      var front := edge[..|edge| - 1];
      assert edge[|edge| - 1] in edge && (s + edge)[|s + edge| - 1] == edge[|edge| - 1]
        && (s + edge)[..|s + edge| - 1] == s + front;
      DropTrailingEdge(s, front, strip);
    }
  }

  /** A text without edges, padded by what is trimmed, is trimmed back to itself. */
  lemma PaddingIsTrimmed(left: string, s: string, right: string, strip: char -> bool)
    requires s != "" && NoEdge(s, strip)
    requires AllStripped(left, strip) && AllStripped(right, strip)
    ensures TrimBy(left + s + right, strip) == s
  {
    assert left + s + right == left + (s + right);
    DropLeadingEdge(left, s + right, strip);
    WiderLeading(s + right, strip);
    DropTrailingEdge(s, right, strip);
  }

  /** What SQLite trims to a clean, non-blank text, Go trims to the same text. */
  lemma SqlTrimmedIsTrimmed(s: string, clean: string)
    requires SqlTrim(s) == clean && clean != "" && TrimSpace(clean) == clean
    ensures TrimSpace(s) == clean
  {
    TrimLeavesNoEdge(clean, IsSpace);
    var middle := DropLeading(s, IsAsciiSpace);
    var left := DropLeadingSplits(s, IsAsciiSpace);
    var right := DropTrailingSplits(middle, IsAsciiSpace);
    assert s == left + clean + right;
    PaddingIsTrimmed(left, clean, right, IsSpace);
  }

  /** The two trims give the same text if and only if SQLite's leaves no other white space at either end. */
  lemma TrimsAgreeIff(s: string)
    ensures SqlTrim(s) == TrimSpace(s) <==> NoEdge(SqlTrim(s), IsSpace)
  {
    TrimLeavesNoEdge(s, IsSpace);
    var clean := SqlTrim(s);
    if NoEdge(clean, IsSpace) {
      NoEdgeIsTrimmed(clean, IsSpace);
      if clean != "" {
        SqlTrimmedIsTrimmed(s, clean);
      } else {
        AllAsciiSpaces(s);
      }
    }
  }

  lemma AllAsciiSpaces(s: string)
    requires SqlTrim(s) == ""
    ensures TrimSpace(s) == ""
  {
    var middle := DropLeading(s, IsAsciiSpace);
    var left := DropLeadingSplits(s, IsAsciiSpace);
    var right := DropTrailingSplits(middle, IsAsciiSpace);
    assert s == s + "";
    DropLeadingEdge(s, "", IsSpace);
  }

  /** The two trims differ: a tab in front of a text is white space to one of them only. */
  lemma TrimsDiffer(s: string)
    requires s != "" && NoEdge(s, IsSpace)
    ensures TrimSpace("\t" + s) == s && SqlTrim("\t" + s) == "\t" + s
  {
    PaddingIsTrimmed("\t", s, "", IsSpace);
    assert "\t" + s + "" == "\t" + s;
    assert ("\t" + s)[|s|] == s[|s| - 1];
    NoEdgeIsTrimmed("\t" + s, IsAsciiSpace);
  }
}
