/**
 * The host-name check of `validateConnection` (src/lib/tcp-client.ts), the regular expression
 *   ^L(\.L)*$ | ^(\d{1,3}\.){3}\d{1,3}$   with   L = [a-zA-Z0-9]([a-zA-Z0-9-]{0,61}[a-zA-Z0-9])?
 * written as a scanner that checks one dot-separated piece at a time.
 */
module HostGrammar {

  predicate IsAsciiDigit(c: char)
  {
    '0' <= c <= '9'
  }

  predicate IsAsciiAlnum(c: char)
  {
    ('a' <= c <= 'z') || ('A' <= c <= 'Z') || IsAsciiDigit(c)
  }

  predicate IsLabelChar(c: char)
  {
    IsAsciiAlnum(c) || c == '-'
  }

  /** `L`: 1 to 63 letters, digits or hyphens, starting and ending with a letter or digit. */
  predicate IsLabel(s: string)
  {
    && 1 <= |s| <= 63
    && IsAsciiAlnum(s[0]) && IsAsciiAlnum(s[|s| - 1])
    && forall i :: 0 <= i < |s| ==> IsLabelChar(s[i])
  }

  /** `\d{1,3}`: one to three decimal digits, whatever their value. */
  predicate IsDigitGroup(s: string)
  {
    1 <= |s| <= 3 && forall i :: 0 <= i < |s| ==> IsAsciiDigit(s[i])
  }

  /** The position of the first '.', or the length when there is none. */
  function DotIndex(s: string): (i: nat)
    ensures i <= |s|
    ensures i < |s| ==> s[i] == '.'
    ensures forall j :: 0 <= j < i ==> s[j] != '.'
    decreases |s|
  {
    if s == [] || s[0] == '.' then 0 else 1 + DotIndex(s[1..])
  }

  /** `^L(\.L)*$`: the piece before the first dot is a label, and so is the rest, piece by piece. */
  predicate MatchesLabels(s: string)
    decreases |s|
  {
    var i := DotIndex(s);
    IsLabel(s[..i]) && (i == |s| || MatchesLabels(s[i + 1..]))
  }

  /** `(\d{1,3}\.){groups-1}\d{1,3}`: exactly `groups` digit groups separated by dots. */
  predicate MatchesDigitGroups(s: string, groups: nat)
    requires groups >= 1
    decreases groups
  {
    var i := DotIndex(s);
    && IsDigitGroup(s[..i])
    && if groups == 1 then i == |s| else i < |s| && MatchesDigitGroups(s[i + 1..], groups - 1)
  }

  /** The whole regular expression. */
  predicate MatchesHostRegex(s: string)
  {
    MatchesLabels(s) || MatchesDigitGroups(s, 4)
  }

  /** Pieces joined with dots: the reference reading of a dotted name. */
  function Join(parts: seq<string>): string
  {
    if parts == [] then [] else if |parts| == 1 then parts[0] else parts[0] + "." + Join(parts[1..])
  }

  /** The dot-separated pieces of a string. */
  function Split(s: string): (parts: seq<string>)
    ensures |parts| >= 1
    ensures Join(parts) == s
    ensures forall k :: 0 <= k < |parts| ==> '.' !in parts[k]
    decreases |s|
  {
    var i := DotIndex(s);
    if i == |s| then [s]
    else
      var rest := Split(s[i + 1..]);
      assert s == s[..i] + "." + s[i + 1..];
      [s[..i]] + rest
  }

  lemma LabelHasNoDot(s: string)
    requires IsLabel(s)
    ensures '.' !in s
  {
    forall i | 0 <= i < |s| ensures s[i] != '.' {
      assert IsLabelChar(s[i]);
    }
  }

  lemma {:induction false} DotIndexOfJoin(p: string, rest: string)
    requires '.' !in p
    ensures DotIndex(p + "." + rest) == |p|
    decreases |p|
  {
    if p != [] {
      assert (p + "." + rest)[1..] == p[1..] + "." + rest;
      DotIndexOfJoin(p[1..], rest);
    }
  }

  lemma DotIndexOfDotless(p: string)
    requires '.' !in p
    ensures DotIndex(p) == |p|
  {
  }

  /** Splitting a join of dot-free pieces gives the pieces back. */
  lemma {:induction false} SplitJoin(parts: seq<string>)
    requires |parts| >= 1
    requires forall k :: 0 <= k < |parts| ==> '.' !in parts[k]
    ensures Split(Join(parts)) == parts
    decreases |parts|
  {
    if |parts| == 1 {
      DotIndexOfDotless(parts[0]);
    } else {
      var s := Join(parts);
      DotIndexOfJoin(parts[0], Join(parts[1..]));
      assert s[..|parts[0]|] == parts[0];
      assert s[|parts[0]| + 1..] == Join(parts[1..]);
      SplitJoin(parts[1..]);
      assert [parts[0]] + parts[1..] == parts;
    }
  }

  /** Every piece is a label. */
  predicate AllLabels(parts: seq<string>)
    decreases |parts|
  {
    parts == [] || (IsLabel(parts[0]) && AllLabels(parts[1..]))
  }

  lemma {:induction false} AllLabelsMeansEach(parts: seq<string>)
    ensures AllLabels(parts) <==> forall k :: 0 <= k < |parts| ==> IsLabel(parts[k])
    decreases |parts|
  {
    if parts != [] {
      AllLabelsMeansEach(parts[1..]);
      assert forall k :: 1 <= k < |parts| ==> parts[k] == parts[1..][k - 1];
    }
  }

  /** The scanner accepts a string exactly when every dot-separated piece of it is a label. */
  lemma {:induction false} MatchesLabelsIffPiecesAreLabels(s: string)
    ensures MatchesLabels(s) <==> AllLabels(Split(s))
    decreases |s|
  {
    var i := DotIndex(s);
    if i < |s| {
      MatchesLabelsIffPiecesAreLabels(s[i + 1..]);
      var parts := Split(s);
      assert parts == [s[..i]] + Split(s[i + 1..]);
      assert parts[1..] == Split(s[i + 1..]);
    } else {
      assert s[..i] == s;
      assert Split(s) == [s];
      assert [s][1..] == [];
    }
  }

  /**
   * The label alternative accepts exactly the dot-joins of non-empty lists of labels: so
   * `invalid..hostname`, with its empty middle piece, is refused.
   */
  lemma JoinOfLabelsMatches(parts: seq<string>)
    requires |parts| >= 1
    requires forall k :: 0 <= k < |parts| ==> IsLabel(parts[k])
    ensures MatchesLabels(Join(parts))
  {
    forall k | 0 <= k < |parts| ensures '.' !in parts[k] {
      LabelHasNoDot(parts[k]);
    }
    SplitJoin(parts);
    MatchesLabelsIffPiecesAreLabels(Join(parts));
    AllLabelsMeansEach(parts);
  }

  lemma DigitGroupIsLabel(s: string)
    requires IsDigitGroup(s)
    ensures IsLabel(s)
  {
  }

  /** Every run of dot-separated digit groups also matches the label alternative. */
  lemma {:induction false} DigitGroupsMatchLabels(s: string, groups: nat)
    requires groups >= 1 && MatchesDigitGroups(s, groups)
    ensures MatchesLabels(s)
    decreases groups
  {
    var i := DotIndex(s);
    DigitGroupIsLabel(s[..i]);
    if groups > 1 {
      DigitGroupsMatchLabels(s[i + 1..], groups - 1);
    }
  }

  /**
   * So the dotted-quad alternative adds nothing: the regular expression is the label grammar alone,
   * and octet values are never range-checked.
   */
  lemma HostRegexIsLabelGrammar(s: string)
    ensures MatchesHostRegex(s) <==> MatchesLabels(s)
  {
    if MatchesDigitGroups(s, 4) {
      DigitGroupsMatchLabels(s, 4);
    }
  }

  /** For dot-free pieces, the label alternative accepts their join exactly when each piece is a label. */
  lemma PiecesDecide(parts: seq<string>)
    requires |parts| >= 1
    requires forall k :: 0 <= k < |parts| ==> '.' !in parts[k]
    ensures MatchesLabels(Join(parts)) <==> forall k :: 0 <= k < |parts| ==> IsLabel(parts[k])
  {
    SplitJoin(parts);
    MatchesLabelsIffPiecesAreLabels(Join(parts));
    AllLabelsMeansEach(parts);
  }

  /**
   * The examples the client's tests rely on, and three it does not state. Each example string is a
   * parameter fixed by its `requires`, so that the proof goes through the lemmas above instead of
   * evaluating the scanner on a literal.
   */
  lemma LocalhostAccepted(s: string)
    requires s == "localhost"
    ensures MatchesHostRegex(s)
  {
    assert IsLabel(s);
    PiecesDecide([s]);
  }

  lemma LoopbackAccepted(s: string)
    requires s == "127.0.0.1"
    ensures MatchesHostRegex(s)
  {
    var parts := ["127", "0", "0", "1"];
    assert Join(parts) == s by {
      assert Join(parts[2..]) == "0.1";
      assert Join(parts[1..]) == "0.0.1";
    }
    assert forall k :: 0 <= k < |parts| ==> IsLabel(parts[k]);
    PiecesDecide(parts);
  }

  /** Octets are not range-checked: 999 is accepted as readily as 127. */
  lemma OutOfRangeOctetsAccepted(s: string)
    requires s == "999.999.999.999"
    ensures MatchesHostRegex(s)
  {
    var octet := "999";
    var parts := [octet, octet, octet, octet];
    assert Join(parts) == s by {
      assert Join(parts[2..]) == "999.999";
      assert Join(parts[1..]) == "999.999.999";
    }
    assert IsLabel(octet);
    PiecesDecide(parts);
  }

  lemma EmptyLabelRefused(s: string)
    requires s == "invalid..hostname"
    ensures !MatchesHostRegex(s)
  {
    var first, rest := "invalid", ".hostname";
    assert s == first + "." + rest;
    DotIndexOfJoin(first, rest);
    assert s[|first| + 1..] == rest;
    assert DotIndex(rest) == 0 && !IsLabel(rest[..0]);
    assert !MatchesLabels(rest);
    HostRegexIsLabelGrammar(s);
  }

  lemma LeadingHyphenRefused(s: string)
    requires s == "-localhost"
    ensures !MatchesHostRegex(s)
  {
    assert !IsLabel(s);
    PiecesDecide([s]);
    HostRegexIsLabelGrammar(s);
  }

  lemma TrailingDotRefused(s: string)
    requires s == "localhost."
    ensures !MatchesHostRegex(s)
  {
    var parts := ["localhost", ""];
    assert Join(parts) == s by {
      assert Join(parts[1..]) == "";
    }
    assert !IsLabel(parts[1]);
    PiecesDecide(parts);
    HostRegexIsLabelGrammar(s);
  }
}
