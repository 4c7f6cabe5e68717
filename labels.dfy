/**
 * The label table of the recogniser (src/labels.py): the 29 default class
 * names, the bounds-checked lookup that falls back to "UNKNOWN", and the
 * line filter that turns a labels file into a table.
 */
module Labels {
  import opened Wrappers

  /** The default table: the letters A..Z, then SPACE, DELETE and NOTHING. */
  const DefaultLabels: seq<string> := [
    "A", "B", "C", "D", "E", "F", "G", "H", "I", "J", "K", "L", "M",
    "N", "O", "P", "Q", "R", "S", "T", "U", "V", "W", "X", "Y", "Z",
    "SPACE", "DELETE", "NOTHING"
  ]

  /** The sentinel returned for an index outside the table. */
  const Unknown: string := "UNKNOWN"

  lemma DefaultLabelsShape()
    ensures |DefaultLabels| == 29
    ensures forall i :: 0 <= i < 26 ==> DefaultLabels[i] == [('A' as int + i) as char]
    ensures DefaultLabels[26..] == ["SPACE", "DELETE", "NOTHING"]
    ensures Unknown !in DefaultLabels
  {
  }

  /**
   * Lookup of a class index; `None` for the table means the default table.
   * Any index, negative or too large, is answered: out of range gives "UNKNOWN".
   */
  function GetLabel(index: int, labels: Option<seq<string>>): (r: string)
    ensures var table := if labels.Some? then labels.value else DefaultLabels;
            (0 <= index < |table| ==> r == table[index]) &&
            (index < 0 || |table| <= index ==> r == Unknown)
  {
    var table := if labels.None? then DefaultLabels else labels.value;
    if 0 <= index < |table| then table[index] else Unknown
  }

  /** With the default table, "UNKNOWN" comes back exactly for the out-of-range indices. */
  lemma DefaultLookupUnknownIff(index: int)
    ensures GetLabel(index, None) == Unknown <==> !(0 <= index < 29)
    ensures 0 <= index < 26 ==> GetLabel(index, None) == [('A' as int + index) as char]
  {
    DefaultLabelsShape();
    if 0 <= index < 29 {
      assert GetLabel(index, None) == DefaultLabels[index];
      assert DefaultLabels[index] in DefaultLabels;
    }
  }

  // ----- str.strip() -----

  /** The characters for which Python's `str.isspace` holds. */
  predicate IsSpace(c: char)
  {
    ('\t' <= c <= '\r') || ('\U{1c}' <= c <= ' ') ||
    c == '\U{85}' || c == '\U{a0}' || c == '\U{1680}' || ('\U{2000}' <= c <= '\U{200a}') ||
    c == '\U{2028}' || c == '\U{2029}' || c == '\U{202f}' || c == '\U{205f}' || c == '\U{3000}'
  }

  predicate AllSpace(s: string)
  {
    forall k :: 0 <= k < |s| ==> IsSpace(s[k])
  }

  /** The length of the whitespace run that starts the string. */
  function LeadingSpaces(s: string): (n: nat)
    ensures n <= |s| && AllSpace(s[..n])
    ensures n == |s| || !IsSpace(s[n])
  {
    if s == [] || !IsSpace(s[0]) then 0
    else
      var n := 1 + LeadingSpaces(s[1..]);
      assert forall k :: 1 <= k < n ==> s[..n][k] == s[1..][..n - 1][k - 1];
      n
  }

  /** Where the whitespace run that ends the string begins. */
  function TrailingStart(s: string): (m: nat)
    ensures m <= |s| && AllSpace(s[m..])
    ensures m == 0 || !IsSpace(s[m - 1])
  {
    if s == [] || !IsSpace(s[|s| - 1]) then |s|
    else
      var m := TrailingStart(s[..|s| - 1]);
      assert forall k :: m <= k < |s| - 1 ==> s[k] == s[..|s| - 1][k];
      m
  }

  /**
   * Python's `line.strip()`: drops whitespace on both sides; nothing is left
   * exactly when the line is all whitespace, and what is left neither starts
   * nor ends with whitespace.
   */
  function Strip(s: string): (r: string)
    ensures |r| <= |s|
    ensures r == [] <==> AllSpace(s)
    ensures r == [] || (!IsSpace(r[0]) && !IsSpace(r[|r| - 1]))
  {
    var i := LeadingSpaces(s);
    if i == |s| then
      assert s[..i] == s;
      []
    else
      var j := TrailingStart(s);
      s[i..j]
  }

  /** What `Strip` keeps is an infix of the line, cut out between two runs of whitespace. */
  lemma StripInfix(s: string) returns (i: nat, j: nat)
    ensures i <= j <= |s| && Strip(s) == s[i..j]
    ensures AllSpace(s[..i]) && AllSpace(s[j..])
  {
    i := LeadingSpaces(s);
    if i == |s| {
      j := i;
    } else {
      j := TrailingStart(s);
    }
  }

  lemma {:induction false} StripIdempotent(s: string)
    ensures Strip(Strip(s)) == Strip(s)
  {
    var r := Strip(s);
    if r != [] {
      assert LeadingSpaces(r) == 0;
      assert TrailingStart(r) == |r|;
      assert r[0..|r|] == r;
    }
  }

  // ----- load_labels -----

  /** A line that stripping leaves something of. */
  predicate NonBlank(line: string)
  {
    Strip(line) != []
  }

  /** `[line.strip() for line in lines if line.strip()]` */
  function CleanLines(lines: seq<string>): (r: seq<string>)
    ensures |r| <= |lines|
    ensures forall k :: 0 <= k < |r| ==> r[k] != [] && Strip(r[k]) == r[k]
    ensures r == [] <==> forall k :: 0 <= k < |lines| ==> !NonBlank(lines[k])
  {
    if lines == [] then []
    else
      var t := Strip(lines[0]);
      var rest := CleanLines(lines[1..]);
      StripIdempotent(lines[0]);
      assert forall k :: 1 <= k < |lines| ==> lines[k] == lines[1..][k - 1];
      if t != [] then [t] + rest else rest
  }

  /** The filter keeps file order: lines before lines after, contribution by contribution. */
  lemma {:induction false} CleanLinesAppend(a: seq<string>, b: seq<string>)
    ensures CleanLines(a + b) == CleanLines(a) + CleanLines(b)
  {
    if a == [] {
      assert a + b == b;
    } else {
      assert (a + b)[0] == a[0];
      assert (a + b)[1..] == a[1..] + b;
      CleanLinesAppend(a[1..], b);
    }
  }

  /** Every entry of the cleaned table comes from some line of the file. */
  lemma {:induction false} CleanLinesFromLines(lines: seq<string>, k: nat)
    requires k < |CleanLines(lines)|
    ensures exists n :: 0 <= n < |lines| && CleanLines(lines)[k] == Strip(lines[n])
  {
    var t := Strip(lines[0]);
    if t != [] && k == 0 {
      assert CleanLines(lines)[0] == Strip(lines[0]);
    } else {
      var k' := if t != [] then k - 1 else k;
      assert CleanLines(lines)[k] == CleanLines(lines[1..])[k'];
      CleanLinesFromLines(lines[1..], k');
      var n :| 0 <= n < |lines[1..]| && CleanLines(lines[1..])[k'] == Strip(lines[1..][n]);
      assert lines[1..][n] == lines[n + 1];
    }
  }

  /**
   * `load_labels`: `file` is the list of lines read from the labels file, or
   * `None` when there is no path, the file does not exist or reading it failed.
   * The table is never empty and has no empty entry; it is the default table
   * unless the file has at least one non-blank line.
   */
  function LoadLabels(file: Option<seq<string>>): (r: seq<string>)
    ensures |r| > 0
    ensures forall k :: 0 <= k < |r| ==> r[k] != []
    ensures file.None? || (forall k :: 0 <= k < |file.value| ==> AllSpace(file.value[k])) ==> r == DefaultLabels
    ensures file.Some? && (exists k :: 0 <= k < |file.value| && !AllSpace(file.value[k])) ==> r == CleanLines(file.value)
  {
    if file.Some? then
      var lines := file.value;
      var labels := CleanLines(lines);
      if labels != [] then labels else DefaultLabels
    else
      DefaultLabels
  }

  /** Looking up in a loaded table never yields an empty label. */
  lemma LookupNeverEmpty(index: int, file: Option<seq<string>>)
    ensures GetLabel(index, Some(LoadLabels(file))) != []
  {
  }
}
