/**
 The line index of the XML handler (src/sdi/handlers/XmlEntitiesHandler.ts): a table of line
 starts built in one pass, and the binary search that turns an offset into a line number.
 */
module LineIndex {

  /** The number of newlines in `s`: the definition the index has to agree with. */
  function Newlines(s: string): nat {
    if s == "" then 0 else Newlines(s[..|s| - 1]) + (if s[|s| - 1] == '\n' then 1 else 0)
  }

  /** `starts` lists, in order, offset 0 and the offset after every newline of `content`. */
  ghost predicate LineStarts(starts: seq<nat>, content: string) {
    && |starts| == Newlines(content) + 1
    && starts[0] == 0
    && (forall k :: 1 <= k < |starts| ==> 1 <= starts[k] <= |content| && content[starts[k] - 1] == '\n')
    && (forall k :: 0 <= k < |starts| ==> starts[k] <= |content| && Newlines(content[..starts[k]]) == k)
  }

  predicate Increasing(starts: seq<int>) {
    forall j, k :: 0 <= j < k < |starts| ==> starts[j] < starts[k]
  }

  lemma {:induction false} NewlinesInPrefix(content: string, a: nat, b: nat)
    requires a <= b <= |content|
    ensures Newlines(content[..a]) <= Newlines(content[..b])
    decreases b - a
  {
    if a < b {
      NewlinesInPrefix(content, a, b - 1);
      assert content[..b][..b - 1] == content[..b - 1];
    }
  }

  /** The newline count of a line start decides its place, so a table of line starts is increasing. */
  lemma LineStartsIncrease(starts: seq<nat>, content: string)
    requires LineStarts(starts, content)
    ensures Increasing(starts)
  {
    forall j, k | 0 <= j < k < |starts|
      ensures starts[j] < starts[k]
    {
      if starts[k] <= starts[j] {
        NewlinesInPrefix(content, starts[k], starts[j]);
      }
    }
  }

  /** The one-pass loop. */
  method BuildLineOffsets(content: string) returns (offsets: seq<nat>)
    ensures LineStarts(offsets, content) && Increasing(offsets)
  {
    offsets := [0];
    for i := 0 to |content|
      invariant LineStarts(offsets, content[..i])
    {
      ghost var before, after := content[..i], content[..i + 1];
      assert after[..i] == before;
      assert forall n :: 0 <= n <= i ==> after[..n] == before[..n];
      if content[i] == '\n' {
        offsets := offsets + [i + 1];
        assert after[..i + 1] == after;
      }
    }
    assert content[..|content|] == content;
    LineStartsIncrease(offsets, content);
  }

  /** The binary search, on any increasing table: the last entry not above `offset`, or the first entry. */
  method OffsetToLine(offset: int, lineOffsets: seq<int>) returns (line: nat)
    requires Increasing(lineOffsets)
    ensures line >= 1
    ensures |lineOffsets| > 0 ==> line <= |lineOffsets|
    ensures forall k :: 1 <= k < |lineOffsets| ==> (lineOffsets[k] <= offset <==> k < line)
  {
    var lo := 0;
    var hi := |lineOffsets| - 1;
    while lo < hi
      invariant 0 <= lo && (lo <= hi || |lineOffsets| == 0) && -1 <= hi < |lineOffsets|
      invariant forall k :: 1 <= k <= lo && k < |lineOffsets| ==> lineOffsets[k] <= offset
      invariant forall k :: hi < k < |lineOffsets| ==> offset < lineOffsets[k]
    {
      var mid := (lo + hi + 1) / 2;  // the ceiling of half the sum
      if lineOffsets[mid] <= offset {
        lo := mid;
      } else {
        hi := mid - 1;
      }
    }
    line := lo + 1;
  }

  /** `content` up to `offset`, which need not lie inside `content`. */
  function Before(content: string, offset: int): string {
    if offset <= 0 then "" else if offset < |content| then content[..offset] else content
  }

  /** A line number that fits the table fits the definition: one more than the newlines before the offset. */
  lemma SearchCountsNewlines(content: string, starts: seq<nat>, offset: int, line: nat)
    requires LineStarts(starts, content)
    requires 1 <= line <= |starts|
    requires forall k :: 1 <= k < |starts| ==> (starts[k] <= offset <==> k < line)
    ensures line == Newlines(Before(content, offset)) + 1
  {
    var n := if offset <= 0 then 0 else if offset < |content| then offset else |content|;
    assert Before(content, offset) == content[..n];
    assert content[..|content|] == content;
    NewlinesInPrefix(content, starts[line - 1], n);
    if line < |starts| {
      var next := starts[line];
      NewlinesInPrefix(content, n, next - 1);
      assert content[..next][..next - 1] == content[..next - 1];
    } else {
      NewlinesInPrefix(content, n, |content|);
    }
  }

  /** Index and search together, as `extractFromXml` uses them for every match it finds. */
  method LineNumberOf(content: string, offset: int) returns (line: nat)
    ensures line == Newlines(Before(content, offset)) + 1
  {
    var offsets := BuildLineOffsets(content);
    line := OffsetToLine(offset, offsets);
    SearchCountsNewlines(content, offsets, offset, line);
  }
}
