/** DocumentIngestionService.chunkContent: splitting a document's text into
    overlapping windows before it is embedded. The service fixes the window size at
    6000 characters and the overlap at 200; here both are parameters. */
module Chunking {
  import opened Common
  import opened JavaStrings

  const MAX_CHUNK_SIZE: nat := 6000
  const CHUNK_OVERLAP: nat := 200

  /** A window [start, end) of the content, before it is trimmed. */
  datatype Window = Window(start: nat, end: nat)

  /** The characters a window prefers to end on. */
  predicate IsBreakChar(c: char) { c == ' ' || c == '\n' || c == '.' }

  /** The largest of the three lastIndexOf(c, end) calls: the last break character
      at or before `end` (inclusive), or -1 when there is none. */
  function BreakPoint(content: string, end: nat): (bp: int)
    requires end < |content|
    ensures -1 <= bp <= end
    ensures bp >= 0 ==> IsBreakChar(content[bp])
  {
    Max(LastIndexOf(content, ' ', end), Max(LastIndexOf(content, '\n', end), LastIndexOf(content, '.', end)))
  }

  /** No break character lies after the break point, up to `end`. */
  lemma BreakPointIsLast(content: string, end: nat)
    requires end < |content|
    ensures forall k :: BreakPoint(content, end) < k <= end ==> !IsBreakChar(content[k])
  {
    LastIndexOfIsLast(content, ' ', end);
    LastIndexOfIsLast(content, '\n', end);
    LastIndexOfIsLast(content, '.', end);
  }

  /** Where the window that starts at `start` ends. The hard end is
      `min(start + maxChunkSize, length)`; see WindowEndBreak for where a soft break
      moves it. */
  function WindowEnd(content: string, maxChunkSize: nat, start: nat): (end: nat)
    requires start < |content|
    ensures start <= end <= |content| && end <= start + maxChunkSize + 1
    ensures maxChunkSize > 0 ==> start < end
  {
    var hard := Min(start + maxChunkSize, |content|);
    if hard < |content| then
      var bp := BreakPoint(content, hard);
      if bp > start + maxChunkSize / 2 then bp + 1 else hard
    else
      hard
  }

  /** When the hard end is before the end of the text and a break character lies past
      the midpoint `start + maxChunkSize / 2` (up to and including the hard end), the
      window ends just after the last such character; otherwise at the hard end. */
  lemma WindowEndBreak(content: string, maxChunkSize: nat, start: nat)
    requires start < |content|
    ensures var end := WindowEnd(content, maxChunkSize, start);
      var hard := Min(start + maxChunkSize, |content|);
      if hard < |content| && exists p :: start + maxChunkSize / 2 < p <= hard && IsBreakChar(content[p]) then
        && start + maxChunkSize / 2 < end - 1 <= hard
        && IsBreakChar(content[end - 1])
        && forall p :: end - 1 < p <= hard ==> !IsBreakChar(content[p])
      else
        end == hard
  {
    var hard := Min(start + maxChunkSize, |content|);
    if hard < |content| {
      BreakPointIsLast(content, hard);
    }
  }

  /** `max(start + 1, end - overlap)`: the next window starts after this one's start,
      and no more than `overlap` characters before this one's end. */
  function NextStart(start: nat, end: nat, overlap: nat): (next: nat)
    ensures start < next && end - overlap <= next
    ensures next == start + 1 || next == end - overlap
  {
    Max(start + 1, end - overlap)
  }

  /** The windows the split loop visits from `start` on, described by the recurrence
      the loop follows: the first starts at `start`, each ends at its WindowEnd, each
      later one starts at the NextStart of the one before, and the loop stops once
      the next start reaches the length of the text. */
  function WindowsFrom(content: string, maxChunkSize: nat, overlap: nat, start: nat): (ws: seq<Window>)
    ensures start <= |content| ==> |ws| <= |content| - start
    ensures start >= |content| ==> ws == []
    ensures start < |content| ==> ws != [] && ws[0].start == start
    ensures forall k :: 0 <= k < |ws| ==> start <= ws[k].start < |content|
    ensures ws != [] ==> NextStart(ws[|ws| - 1].start, ws[|ws| - 1].end, overlap) >= |content|
    ensures InBounds(content, ws)
    decreases |content| - start
  {
    if start >= |content| then []
    else
      var end := WindowEnd(content, maxChunkSize, start);
      [Window(start, end)] + WindowsFrom(content, maxChunkSize, overlap, NextStart(start, end, overlap))
  }

  /** Consecutive windows follow the loop's update `start = max(start + 1, end - overlap)`. */
  lemma {:induction false} WindowsStep(content: string, maxChunkSize: nat, overlap: nat, start: nat, k: nat)
    requires k + 1 < |WindowsFrom(content, maxChunkSize, overlap, start)|
    ensures var ws := WindowsFrom(content, maxChunkSize, overlap, start);
      ws[k + 1].start == NextStart(ws[k].start, ws[k].end, overlap)
    decreases k
  {
    var ws := WindowsFrom(content, maxChunkSize, overlap, start);
    var next := NextStart(start, WindowEnd(content, maxChunkSize, start), overlap);
    var rest := WindowsFrom(content, maxChunkSize, overlap, next);
    assert ws == [ws[0]] + rest;
    if k > 0 {
      WindowsStep(content, maxChunkSize, overlap, next, k - 1);
      assert ws[k] == rest[k - 1] && ws[k + 1] == rest[k];
    }
  }

  /** Each window ends where WindowEnd puts the end of a window with its start. */
  lemma {:induction false} WindowsEnd(content: string, maxChunkSize: nat, overlap: nat, start: nat, k: nat)
    requires k < |WindowsFrom(content, maxChunkSize, overlap, start)|
    ensures var ws := WindowsFrom(content, maxChunkSize, overlap, start);
      ws[k].end == WindowEnd(content, maxChunkSize, ws[k].start)
    decreases k
  {
    var ws := WindowsFrom(content, maxChunkSize, overlap, start);
    var end := WindowEnd(content, maxChunkSize, start);
    var rest := WindowsFrom(content, maxChunkSize, overlap, NextStart(start, end, overlap));
    assert ws == [Window(start, end)] + rest;
    if k > 0 {
      WindowsEnd(content, maxChunkSize, overlap, NextStart(start, end, overlap), k - 1);
      assert ws[k] == rest[k - 1];
    }
  }

  /** The windows of the split loop, from the start of the text. */
  function Windows(content: string, maxChunkSize: nat, overlap: nat): (ws: seq<Window>)
    ensures |ws| <= |content|
    ensures content != [] ==> ws != [] && ws[0].start == 0
  {
    WindowsFrom(content, maxChunkSize, overlap, 0)
  }

  /** WindowsStep for the loop's windows from 0. */
  lemma NextWindow(content: string, maxChunkSize: nat, overlap: nat, k: nat)
    requires k + 1 < |Windows(content, maxChunkSize, overlap)|
    ensures var ws := Windows(content, maxChunkSize, overlap);
      ws[k + 1].start == NextStart(ws[k].start, ws[k].end, overlap)
  {
    WindowsStep(content, maxChunkSize, overlap, 0, k);
  }

  /** WindowsEnd for the loop's windows from 0. */
  lemma WindowEndsAt(content: string, maxChunkSize: nat, overlap: nat, k: nat)
    requires k < |Windows(content, maxChunkSize, overlap)|
    ensures var ws := Windows(content, maxChunkSize, overlap);
      ws[k].end == WindowEnd(content, maxChunkSize, ws[k].start)
  {
    WindowsEnd(content, maxChunkSize, overlap, 0, k);
  }

  ghost predicate InBounds(content: string, ws: seq<Window>)
  {
    forall k :: 0 <= k < |ws| ==> ws[k].start <= ws[k].end <= |content|
  }

  /** Each window's text, trimmed; windows that trim to nothing are dropped. */
  function ChunksOf(content: string, ws: seq<Window>): seq<string>
    requires InBounds(content, ws)
  {
    if ws == [] then []
    else Piece(content, ws[0].start, ws[0].end) + ChunksOf(content, ws[1..])
  }

  /** The trimmed text of the window [start, end), or nothing if it trims to "". */
  function Piece(content: string, start: nat, end: nat): (p: seq<string>)
    requires start <= end <= |content|
    ensures |p| <= 1
  {
    var chunk := Trim(content[start..end]);
    if chunk == [] then [] else [chunk]
  }

  /** The chunks the split loop emits from `start` on. */
  function ChunksFrom(content: string, maxChunkSize: nat, overlap: nat, start: nat): (chunks: seq<string>)
    ensures start >= |content| ==> chunks == []
    ensures start <= |content| ==> |chunks| <= |content| - start
    decreases |content| - start
  {
    if start >= |content| then []
    else
      var end := WindowEnd(content, maxChunkSize, start);
      Piece(content, start, end) + ChunksFrom(content, maxChunkSize, overlap, NextStart(start, end, overlap))
  }

  /** What chunkContent returns: nothing for blank text, the text itself (untrimmed)
      when it fits one chunk, and otherwise what the split loop emits from 0. */
  function Chunks(content: string, maxChunkSize: nat, overlap: nat): (chunks: seq<string>)
    ensures IsBlank(content) ==> chunks == []
    ensures !IsBlank(content) && |content| <= maxChunkSize ==> chunks == [content]
  {
    TrimSpec(content);
    if Trim(content) == [] then []
    else if |content| <= maxChunkSize then [content]
    else ChunksFrom(content, maxChunkSize, overlap, 0)
  }

  /** One turn of the split loop keeps "chunks so far + chunks still to come" equal
      to the loop's whole output. */
  lemma SplitStep(content: string, maxChunkSize: nat, overlap: nat, start: nat, end: nat, next: nat,
                  done: seq<string>, now: seq<string>, all: seq<string>)
    requires start < |content| && end == WindowEnd(content, maxChunkSize, start)
    requires next == NextStart(start, end, overlap)
    requires done + ChunksFrom(content, maxChunkSize, overlap, start) == all
    requires now == done + Piece(content, start, end)
    ensures now + ChunksFrom(content, maxChunkSize, overlap, next) == all
  {
    ConcatAssoc(done, Piece(content, start, end), ChunksFrom(content, maxChunkSize, overlap, next));
  }

  /** The first half of the split loop's body: the hard end, moved back to just after
      the last space, newline or period when that lies past the window's midpoint. */
  method FindEnd(content: string, maxChunkSize: nat, start: nat) returns (end: nat)
    requires start < |content|
    ensures end == WindowEnd(content, maxChunkSize, start)
  {
    end := Min(start + maxChunkSize, |content|);
    if end < |content| {
      var lastSpaceInChunk := LastIndexOf(content, ' ', end);
      var lastNewlineInChunk := LastIndexOf(content, '\n', end);
      var lastPeriodInChunk := LastIndexOf(content, '.', end);
      var breakPoint := Max(lastSpaceInChunk, Max(lastNewlineInChunk, lastPeriodInChunk));
      if breakPoint > start + maxChunkSize / 2 {
        end := breakPoint + 1;
      }
    }
  }

  /** The body of the split loop up to the update of `start`: the window's end, and
      its trimmed text appended unless it is empty. */
  method EmitWindow(content: string, maxChunkSize: nat, start: nat, chunks: seq<string>)
    returns (emitted: seq<string>, end: nat)
    requires start < |content|
    ensures end == WindowEnd(content, maxChunkSize, start)
    ensures emitted == chunks + Piece(content, start, end)
  {
    end := FindEnd(content, maxChunkSize, start);
    emitted := chunks;
    var chunk := Trim(content[start..end]);
    if chunk != [] {
      emitted := emitted + [chunk];
    }
  }

  /** chunkContent, with the split loop as the source has it. */
  method ChunkContent(content: string, maxChunkSize: nat, overlap: nat) returns (chunks: seq<string>)
    ensures chunks == Chunks(content, maxChunkSize, overlap)
  {
    chunks := [];
    if Trim(content) == [] {
      return;
    }
    if |content| <= maxChunkSize {
      chunks := chunks + [content];
      return;
    }
    chunks := SplitLoop(content, maxChunkSize, overlap);
  }

  /** The split loop of chunkContent, for text longer than one chunk. */
  method SplitLoop(content: string, maxChunkSize: nat, overlap: nat) returns (chunks: seq<string>)
    ensures chunks == ChunksFrom(content, maxChunkSize, overlap, 0)
  {
    chunks := [];
    var start: nat := 0;
    ghost var all := ChunksFrom(content, maxChunkSize, overlap, 0);
    while start < |content|
      invariant start <= |content|
      invariant chunks + ChunksFrom(content, maxChunkSize, overlap, start) == all
      decreases |content| - start
    {
      ghost var before := chunks;
      var end;
      chunks, end := EmitWindow(content, maxChunkSize, start, chunks);
      ghost var from := start;
      start := Max(start + 1, end - overlap);
      SplitStep(content, maxChunkSize, overlap, from, end, start, before, chunks, all);
    }
  }

  /** A 15-character text with no break character and no character `<= ' '`
      (such as "abcdefghijklmno"), split with a window of 10 and an overlap of 3. The
      first window is cut hard at 10; the second, from 7, reaches the end of the text;
      the loop then still emits the suffixes from 12, 13 and 14, so there are five
      chunks rather than two. */
  lemma FifteenCharacterSplit(s: string)
    requires |s| == 15
    requires forall k :: 0 <= k < |s| ==> !IsTrimmable(s[k]) && !IsBreakChar(s[k])
    ensures var cs := Chunks(s, 10, 3);
      |cs| == 5 && cs[0] == s[0..10] && cs[1] == s[7..15] && cs[2] == s[12..15] && cs[3] == s[13..15] && cs[4] == s[14..15]
  {
    NoBreakPoint(s, 10);
    assert WindowEnd(s, 10, 0) == 10;
    UntrimmedPiece(s, 0, 10);
    UntrimmedPiece(s, 7, 15);
    UntrimmedPiece(s, 12, 15);
    UntrimmedPiece(s, 13, 15);
    UntrimmedPiece(s, 14, 15);
    FiveWindows(s, 10, 3, s[0..10], s[7..15], s[12..15], s[13..15], s[14..15]);
    TrimSpec(s);
  }

  /** The split loop over a 15-character text with the window size `m` = 10 and the
      overlap `o` = 3, when the first window is cut hard at 10: the windows start at
      0, 7, 12, 13 and 14, and each gives one chunk. */
  lemma FiveWindows(s: string, m: nat, o: nat, c0: string, c1: string, c2: string, c3: string, c4: string)
    requires |s| == 15 && m == 10 && o == 3 && WindowEnd(s, m, 0) == 10
    requires Piece(s, 0, 10) == [c0] && Piece(s, 7, 15) == [c1] && Piece(s, 12, 15) == [c2]
    requires Piece(s, 13, 15) == [c3] && Piece(s, 14, 15) == [c4]
    ensures var cs := ChunksFrom(s, m, o, 0);
      |cs| == 5 && cs[0] == c0 && cs[1] == c1 && cs[2] == c2 && cs[3] == c3 && cs[4] == c4
  {
    FourWindows(s, m, o, c1, c2, c3, c4);
    LoopTurn(s, m, o, 0, 10, 7, [c0], ChunksFrom(s, m, o, 7));
  }

  /** The last four windows of `FiveWindows`, from 7, 12, 13 and 14. */
  lemma FourWindows(s: string, m: nat, o: nat, c1: string, c2: string, c3: string, c4: string)
    requires |s| == 15 && m == 10 && o == 3
    requires Piece(s, 7, 15) == [c1] && Piece(s, 12, 15) == [c2]
    requires Piece(s, 13, 15) == [c3] && Piece(s, 14, 15) == [c4]
    ensures var cs := ChunksFrom(s, m, o, 7);
      |cs| == 4 && cs[0] == c1 && cs[1] == c2 && cs[2] == c3 && cs[3] == c4
  {
    ThreeWindows(s, m, o, c2, c3, c4);
    LoopTurn(s, m, o, 7, 15, 12, [c1], ChunksFrom(s, m, o, 12));
  }

  /** The last three windows of `FiveWindows`, from 12, 13 and 14, each reach the end
      of the text. */
  lemma ThreeWindows(s: string, m: nat, o: nat, c2: string, c3: string, c4: string)
    requires |s| == 15 && m == 10 && o == 3
    requires Piece(s, 12, 15) == [c2] && Piece(s, 13, 15) == [c3] && Piece(s, 14, 15) == [c4]
    ensures var cs := ChunksFrom(s, m, o, 12);
      |cs| == 3 && cs[0] == c2 && cs[1] == c3 && cs[2] == c4
  {
    var r4: seq<string> := [c4];
    LoopTurn(s, m, o, 14, 15, 15, [c4], []);
    var r3 := [c3] + r4;
    LoopTurn(s, m, o, 13, 15, 14, [c3], r4);
    LoopTurn(s, m, o, 12, 15, 13, [c2], r3);
  }

  /** One turn of the split loop: the chunk of the window at `start`, then the chunks
      from the next start. */
  lemma LoopTurn(content: string, maxChunkSize: nat, overlap: nat, start: nat, end: nat, next: nat,
                 chunk: seq<string>, rest: seq<string>)
    requires start < |content| && end == WindowEnd(content, maxChunkSize, start)
    requires next == NextStart(start, end, overlap)
    requires chunk == Piece(content, start, end)
    requires rest == ChunksFrom(content, maxChunkSize, overlap, next)
    ensures ChunksFrom(content, maxChunkSize, overlap, start) == chunk + rest
  {
  }

  /** A non-empty window with no character `<= ' '` is its own chunk. */
  lemma UntrimmedPiece(content: string, start: nat, end: nat)
    requires start < end <= |content|
    requires forall k :: start <= k < end ==> !IsTrimmable(content[k])
    ensures Piece(content, start, end) == [content[start..end]]
  {
    var w := content[start..end];
    assert forall k :: 0 <= k < |w| ==> !IsTrimmable(w[k]);
    assert TrimStart(w, 0) == 0;
    assert TrailingEnd(w, 0, |w|) == |w|;
    assert w[0..|w|] == w;
  }

  /** Text without a space, newline or period has no break point. */
  lemma NoBreakPoint(content: string, end: nat)
    requires end < |content|
    requires forall k :: 0 <= k < |content| ==> !IsBreakChar(content[k])
    ensures BreakPoint(content, end) == -1
  {
  }

  /** The split loop's chunks are the chunks of its windows. */
  lemma {:induction false} ChunksFromWindows(content: string, maxChunkSize: nat, overlap: nat, start: nat)
    ensures ChunksFrom(content, maxChunkSize, overlap, start)
         == ChunksOf(content, WindowsFrom(content, maxChunkSize, overlap, start))
    decreases |content| - start
  {
    if start < |content| {
      var end := WindowEnd(content, maxChunkSize, start);
      var next := NextStart(start, end, overlap);
      ChunksFromWindows(content, maxChunkSize, overlap, next);
      var ws := WindowsFrom(content, maxChunkSize, overlap, start);
      assert ws[1..] == WindowsFrom(content, maxChunkSize, overlap, next);
    }
  }

  /** Window starts grow by at least one per window, so the loop runs at most
      `length` times whatever the overlap. */
  lemma {:induction false} StartsSpread(content: string, maxChunkSize: nat, overlap: nat, i: nat, j: nat)
    requires i <= j < |Windows(content, maxChunkSize, overlap)|
    ensures var ws := Windows(content, maxChunkSize, overlap);
      ws[i].start + (j - i) <= ws[j].start
    decreases j - i
  {
    if i < j {
      var ws := Windows(content, maxChunkSize, overlap);
      StartsSpread(content, maxChunkSize, overlap, i, j - 1);
      NextWindow(content, maxChunkSize, overlap, j - 1);
      var prev, cur := ws[j - 1], ws[j];
      assert cur.start == NextStart(prev.start, prev.end, overlap);
    }
  }

  /** The split loop's windows: the first starts at 0, starts strictly increase and
      stay below the length, there are at most `length` of them, and each is at most
      `maxChunkSize + 1` long. */
  lemma WindowsShape(content: string, maxChunkSize: nat, overlap: nat)
    ensures var ws := Windows(content, maxChunkSize, overlap);
      && |ws| <= |content|
      && (content != [] ==> ws != [] && ws[0].start == 0)
      && (forall k :: 0 <= k < |ws| ==>
            ws[k].start <= ws[k].end <= |content| && ws[k].start < |content|
            && ws[k].end - ws[k].start <= maxChunkSize + 1)
      && (forall i, j :: 0 <= i < j < |ws| ==> ws[i].start < ws[j].start)
  {
    var ws := Windows(content, maxChunkSize, overlap);
    forall k | 0 <= k < |ws| ensures ws[k].end - ws[k].start <= maxChunkSize + 1 {
      WindowEndsAt(content, maxChunkSize, overlap, k);
    }
    forall i, j | 0 <= i < j < |ws| ensures ws[i].start < ws[j].start {
      StartsSpread(content, maxChunkSize, overlap, i, j);
    }
  }

  /** Coverage: with a positive window size the windows cover the whole text without
      a gap (each starts no later than the previous one ends, the last ends at the
      length), and consecutive windows share at most `overlap` characters. */
  lemma WindowsCover(content: string, maxChunkSize: nat, overlap: nat)
    requires maxChunkSize > 0
    ensures var ws := Windows(content, maxChunkSize, overlap);
      && (content != [] ==> ws != [] && ws[0].start == 0 && ws[|ws| - 1].end == |content|)
      && (forall k :: 0 <= k < |ws| - 1 ==> ws[k + 1].start <= ws[k].end)
      && (forall k :: 0 <= k < |ws| - 1 ==> ws[k].end - ws[k + 1].start <= overlap)
  {
    var ws := Windows(content, maxChunkSize, overlap);
    if content != [] {
      WindowEndsAt(content, maxChunkSize, overlap, |ws| - 1);
    }
    forall k | 0 <= k < |ws| - 1
      ensures ws[k + 1].start <= ws[k].end && ws[k].end - ws[k + 1].start <= overlap
    {
      NextWindow(content, maxChunkSize, overlap, k);
      WindowEndsAt(content, maxChunkSize, overlap, k);
    }
  }

  /** A window starting later than one that already reaches the end of the text
      reaches it too. */
  lemma EndStaysAtLength(content: string, maxChunkSize: nat, s: nat, s': nat)
    requires s < s' < |content|
    requires WindowEnd(content, maxChunkSize, s) == |content|
    ensures WindowEnd(content, maxChunkSize, s') == |content|
  {
    assert s + maxChunkSize + 1 >= |content|;
  }

  /** The loop does not stop when a window first reaches the end of the text: every
      later window also ends there, starts within `overlap` of the end, each after the
      first of them starts one past the one before, and there are at most `overlap`
      of them. */
  lemma {:induction false} TrailingSuffixWindows(content: string, maxChunkSize: nat, overlap: nat, k: nat)
    requires k < |Windows(content, maxChunkSize, overlap)|
    requires Windows(content, maxChunkSize, overlap)[k].end == |content|
    ensures var ws := Windows(content, maxChunkSize, overlap);
      && (forall j :: k <= j < |ws| ==> ws[j].end == |content|)
      && (forall j :: k < j < |ws| ==> |content| - overlap <= ws[j].start)
      && (forall j :: k + 1 < j < |ws| ==> ws[j].start == ws[j - 1].start + 1)
      && |ws| - (k + 1) <= overlap
  {
    var ws := Windows(content, maxChunkSize, overlap);
    forall j | k < j < |ws| ensures ws[j].end == |content| && |content| - overlap <= ws[j].start {
      LaterWindowAtEnd(content, maxChunkSize, overlap, k, j);
    }
    forall j | k + 1 < j < |ws| ensures ws[j].start == ws[j - 1].start + 1 {
      LaterWindowStep(content, maxChunkSize, overlap, k, j);
    }
    if k + 1 < |ws| {
      StartsSpread(content, maxChunkSize, overlap, k + 1, |ws| - 1);
    }
  }

  /** A window after one that reaches the end of the text reaches it too, and starts
      within `overlap` of the end. */
  lemma LaterWindowAtEnd(content: string, maxChunkSize: nat, overlap: nat, k: nat, j: nat)
    requires k < j < |Windows(content, maxChunkSize, overlap)|
    requires Windows(content, maxChunkSize, overlap)[k].end == |content|
    ensures var ws := Windows(content, maxChunkSize, overlap);
      ws[j].end == |content| && |content| - overlap <= ws[j].start
  {
    var ws := Windows(content, maxChunkSize, overlap);
    StartsSpread(content, maxChunkSize, overlap, k, j);
    NextWindow(content, maxChunkSize, overlap, k);
    WindowEndsAt(content, maxChunkSize, overlap, k);
    WindowEndsAt(content, maxChunkSize, overlap, j);
    EndStaysAtLength(content, maxChunkSize, ws[k].start, ws[j].start);
    StartsSpread(content, maxChunkSize, overlap, k + 1, j);
  }

  /** Past the first window after one that reaches the end, each window starts one
      past the one before. */
  lemma LaterWindowStep(content: string, maxChunkSize: nat, overlap: nat, k: nat, j: nat)
    requires k + 1 < j < |Windows(content, maxChunkSize, overlap)|
    requires Windows(content, maxChunkSize, overlap)[k].end == |content|
    ensures var ws := Windows(content, maxChunkSize, overlap);
      ws[j].start == ws[j - 1].start + 1
  {
    var ws := Windows(content, maxChunkSize, overlap);
    LaterWindowAtEnd(content, maxChunkSize, overlap, k, j - 1);
    NextWindow(content, maxChunkSize, overlap, j - 1);
    var prev, cur := ws[j - 1], ws[j];
    assert prev.end - overlap <= prev.start;
    assert cur.start == NextStart(prev.start, prev.end, overlap);
  }

  /** Every element of ChunksOf is the non-empty trimmed text of one of the windows. */
  lemma {:induction false} ChunkComesFromWindow(content: string, ws: seq<Window>, c: string)
    requires InBounds(content, ws)
    requires c in ChunksOf(content, ws)
    ensures c != []
    ensures exists k :: 0 <= k < |ws| && c == Trim(content[ws[k].start..ws[k].end])
  {
    var chunk := Trim(content[ws[0].start..ws[0].end]);
    if chunk != [] && c == chunk {
      assert c == Trim(content[ws[0].start..ws[0].end]);
    } else {
      ChunkComesFromWindow(content, ws[1..], c);
      var k :| 0 <= k < |ws[1..]| && c == Trim(content[ws[1..][k].start..ws[1..][k].end]);
      assert ws[1..][k] == ws[k + 1];
    }
  }

  /** The trimmed text of one window is at most `maxChunkSize + 1` long, and when it is
      that long it ends in '.': the window then ends just after a break character at
      the hard end, found there by the inclusive lastIndexOf, and a space or newline
      there would have been trimmed off. */
  lemma WindowChunkBounds(content: string, maxChunkSize: nat, start: nat)
    requires start < |content|
    ensures var c := Trim(content[start..WindowEnd(content, maxChunkSize, start)]);
      && |c| <= maxChunkSize + 1
      && (|c| == maxChunkSize + 1 ==> c[|c| - 1] == '.')
      && (c != [] ==> !IsBlank(c))
  {
    var end := WindowEnd(content, maxChunkSize, start);
    var w := content[start..end];
    var c := Trim(w);
    TrimSpec(w);
    if |c| == maxChunkSize + 1 {
      TrimKeepsFullLength(w);
      assert end - 1 == Min(start + maxChunkSize, |content|);
      assert IsBreakChar(content[end - 1]);
      assert c[|c| - 1] == content[end - 1];
    }
  }

  /** Every chunk is non-blank and at most `maxChunkSize + 1` long, and one of exactly
      `maxChunkSize + 1` characters ends in '.'. */
  lemma ChunkBounds(content: string, maxChunkSize: nat, overlap: nat, c: string)
    requires c in Chunks(content, maxChunkSize, overlap)
    ensures !IsBlank(c)
    ensures |c| <= maxChunkSize + 1
    ensures |c| == maxChunkSize + 1 ==> c[|c| - 1] == '.'
  {
    if |content| > maxChunkSize && !IsBlank(content) {
      ChunksFromWindows(content, maxChunkSize, overlap, 0);
      SplitChunkBounds(content, maxChunkSize, overlap, c);
    }
  }

  /** ChunkBounds for a chunk of the split loop. */
  lemma SplitChunkBounds(content: string, maxChunkSize: nat, overlap: nat, c: string)
    requires c in ChunksOf(content, Windows(content, maxChunkSize, overlap))
    ensures !IsBlank(c)
    ensures |c| <= maxChunkSize + 1
    ensures |c| == maxChunkSize + 1 ==> c[|c| - 1] == '.'
  {
    var ws := Windows(content, maxChunkSize, overlap);
    ChunkComesFromWindow(content, ws, c);
    var k :| 0 <= k < |ws| && c == Trim(content[ws[k].start..ws[k].end]);
    WindowEndsAt(content, maxChunkSize, overlap, k);
    WindowChunk(content, maxChunkSize, ws[k], c);
  }

  /** ChunkBounds for the trimmed text `c` of one window of the loop. */
  lemma WindowChunk(content: string, maxChunkSize: nat, w: Window, c: string)
    requires w.start < |content| && w.end == WindowEnd(content, maxChunkSize, w.start)
    requires c == Trim(content[w.start..w.end]) && c != []
    ensures !IsBlank(c)
    ensures |c| <= maxChunkSize + 1
    ensures |c| == maxChunkSize + 1 ==> c[|c| - 1] == '.'
  {
    WindowChunkBounds(content, maxChunkSize, w.start);
  }
}
