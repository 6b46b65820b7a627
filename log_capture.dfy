/**
 * The log subscriber installed by `launch`: every message logged by the
 * engine is copied, line by line and in chunks of at most 130 bytes, into a
 * shared list of log items, with runs of identical text folded into one item
 * whose `count` is bumped.
 *
 * Text is modelled by its UTF-8 bytes: Rust compares `String`s byte by byte,
 * and the chunking works on bytes.
 */
module LogCapture {
  import opened Utf8
  import opened Logging

  /** One entry of the captured log. */
  datatype LogItem = LogItem(level: LogLevel, text: seq<byte>, count: nat)

  /** Largest chunk of a line, in bytes. */
  const ChunkSize: nat := 130

  /** "‣‣‣‣": four U+2023 TRIANGULAR BULLET, put in front of every continuation chunk. */
  const Prefix: seq<byte> := [0xE2, 0x80, 0xA3, 0xE2, 0x80, 0xA3, 0xE2, 0x80, 0xA3, 0xE2, 0x80, 0xA3]

  const LF: byte := 0x0A
  const CR: byte := 0x0D

  // ---------------------------------------------------------------------
  // Splitting a message into lines (Rust's `str::lines`)
  // ---------------------------------------------------------------------

  /** Index of the first line feed in `s`, or `|s|` if there is none. */
  function LineEnd(s: seq<byte>): (k: nat)
    ensures k <= |s|
    ensures k < |s| ==> s[k] == LF
    ensures forall j :: 0 <= j < k ==> s[j] != LF
  {
    if s == [] then 0
    else if s[0] == LF then 0
    else 1 + LineEnd(s[1..])
  }

  /** Drops one carriage return at the end of a line that was ended by a line feed. */
  function StripCR(line: seq<byte>): seq<byte>
  {
    if |line| > 0 && line[|line| - 1] == CR then line[..|line| - 1] else line
  }

  /**
   * The lines of `s`: split after each line feed; the line feed, and a
   * carriage return just before it, are removed; a final line feed does not
   * start another (empty) line; an empty message has no lines.
   */
  function Lines(s: seq<byte>): (r: seq<seq<byte>>)
    ensures forall i, j :: 0 <= i < |r| && 0 <= j < |r[i]| ==> r[i][j] != LF
    ensures r == [] <==> s == []
    decreases |s|
  {
    if s == [] then []
    else
      var k := LineEnd(s);
      if k == |s| then [s]
      else [StripCR(s[..k])] + Lines(s[k + 1..])
  }

  /** Each line followed by a line feed: the text that `Lines` takes apart. */
  function Terminated(lines: seq<seq<byte>>): seq<byte>
  {
    if lines == [] then [] else lines[0] + [LF] + Terminated(lines[1..])
  }

  /** A line as `Lines` can return it and `Terminated` can rebuild it: no line feed, no final carriage return. */
  predicate PlainLine(line: seq<byte>)
  {
    (forall j :: 0 <= j < |line| ==> line[j] != LF) && (line == [] || line[|line| - 1] != CR)
  }

  /** The first line ends at the line feed that `Terminated` puts after it. */
  lemma {:induction false} LineEndTerminated(line: seq<byte>, rest: seq<byte>)
    requires forall j :: 0 <= j < |line| ==> line[j] != LF
    ensures LineEnd(line + [LF] + rest) == |line|
    decreases |line|
  {
    if line != [] {
      assert (line + [LF] + rest)[1..] == line[1..] + [LF] + rest;
      LineEndTerminated(line[1..], rest);
    }
  }

  /** One unfolding of `Lines` at a line feed. */
  lemma {:induction false} LinesAt(s: seq<byte>, k: nat)
    requires k < |s| && LineEnd(s) == k
    ensures Lines(s) == [StripCR(s[..k])] + Lines(s[k + 1..])
  {
  }

  /** Splitting undoes terminating: lines without line feeds or final carriage returns come back unchanged. */
  lemma {:induction false} LinesOfTerminated(lines: seq<seq<byte>>)
    requires forall i :: 0 <= i < |lines| ==> PlainLine(lines[i])
    ensures Lines(Terminated(lines)) == lines
    decreases |lines|
  {
    if lines != [] {
      var line, rest := lines[0], Terminated(lines[1..]);
      var s := line + [LF] + rest;
      assert PlainLine(line);
      assert Terminated(lines) == s;
      LineEndTerminated(line, rest);
      assert s[..|line|] == line;
      assert s[|line| + 1..] == rest;
      LinesAt(s, |line|);
      assert StripCR(line) == line;
      assert forall i :: 0 <= i < |lines[1..]| ==> PlainLine(lines[1..][i]) by {
        forall i | 0 <= i < |lines[1..]| ensures PlainLine(lines[1..][i]) {
          assert lines[1..][i] == lines[i + 1];
        }
      }
      LinesOfTerminated(lines[1..]);
      assert lines == [line] + lines[1..];
    }
  }

  /** The text `Terminated(Lines(s))` should give back for a message `s` without carriage returns. */
  function Reterminated(s: seq<byte>): seq<byte>
  {
    if s == [] || s[|s| - 1] == LF then s else s + [LF]
  }

  /** Terminating one more line in front matches putting it, and a line feed, in front of the text. */
  lemma {:induction false} TerminatedCons(line: seq<byte>, rest: seq<byte>, lines: seq<seq<byte>>)
    requires Terminated(lines) == Reterminated(rest)
    ensures Terminated([line] + lines) == Reterminated(line + [LF] + rest)
  {
    assert ([line] + lines)[1..] == lines;
    var s := line + [LF] + rest;
    if rest != [] {
      assert s[|s| - 1] == rest[|rest| - 1];
    }
  }

  /** `s` holds no carriage return. */
  predicate NoCR(s: seq<byte>)
  {
    forall j :: 0 <= j < |s| ==> s[j] != CR
  }

  /** Without a carriage return before the first line feed, the first line is the bytes in front of it. */
  lemma {:induction false} FirstLinePlain(s: seq<byte>, k: nat)
    requires k < |s| && LineEnd(s) == k
    requires k == 0 || s[k - 1] != CR
    ensures Lines(s) == [s[..k]] + Lines(s[k + 1..])
  {
    LinesAt(s, k);
    assert StripCR(s[..k]) == s[..k];
  }

  /** The part after the first line feed of a message without carriage returns has none either. */
  lemma NoCRAfter(s: seq<byte>, k: nat)
    requires k < |s| && NoCR(s)
    ensures NoCR(s[k + 1..]) && s == s[..k] + [s[k]] + s[k + 1..]
  {
    var rest := s[k + 1..];
    assert forall j :: 0 <= j < |rest| ==> rest[j] == s[k + 1 + j];
  }

  /**
   * Terminating undoes splitting: in a message without carriage returns, the
   * lines followed by line feeds give back the message, plus one line feed
   * when the message did not already end with one.
   */
  lemma {:induction false} TerminatedLines(s: seq<byte>)
    requires NoCR(s)
    ensures Terminated(Lines(s)) == Reterminated(s)
    decreases |s|
  {
    if s != [] {
      var k := LineEnd(s);
      if k == |s| {
        assert Lines(s) == [s];
        assert Terminated([s]) == s + [LF] + Terminated([]);
      } else {
        var line, rest := s[..k], s[k + 1..];
        NoCRAfter(s, k);
        FirstLinePlain(s, k);
        TerminatedLines(rest);
        TerminatedCons(line, rest, Lines(rest));
      }
    }
  }

  /** A carriage return just before a line feed is dropped with it. */
  lemma {:induction false} CarriageReturnDropped(line: seq<byte>, rest: seq<byte>)
    requires PlainLine(line)
    ensures Lines(line + [CR, LF] + rest) == [line] + Lines(rest)
  {
    LineEndTerminated(line + [CR], rest);
    var s := line + [CR, LF] + rest;
    assert s == (line + [CR]) + [LF] + rest;
    assert s[..|line| + 1] == line + [CR];
    assert s[|line| + 2..] == rest;
  }

  // ---------------------------------------------------------------------
  // Cutting a line into chunks (Rust's `<[u8]>::chunks(130)`)
  // ---------------------------------------------------------------------

  /** `line` cut into consecutive pieces of `ChunkSize` bytes, the last one possibly shorter. */
  function Chunks(line: seq<byte>): (r: seq<seq<byte>>)
    decreases |line|
  {
    if line == [] then []
    else if |line| <= ChunkSize then [line]
    else [line[..ChunkSize]] + Chunks(line[ChunkSize..])
  }

  /** Concatenation of a sequence of byte strings. */
  function Flatten(ss: seq<seq<byte>>): seq<byte>
  {
    if ss == [] then [] else ss[0] + Flatten(ss[1..])
  }

  /**
   * The chunks of a line are non-empty, at most 130 bytes long, all but the
   * last exactly 130 bytes, and together they spell the line.
   */
  lemma {:induction false} ChunksSpellLine(line: seq<byte>)
    ensures Flatten(Chunks(line)) == line
    ensures forall i :: 0 <= i < |Chunks(line)| ==> 0 < |Chunks(line)[i]| <= ChunkSize
    ensures forall i :: 0 <= i < |Chunks(line)| - 1 ==> |Chunks(line)[i]| == ChunkSize
    ensures |Chunks(line)| == (|line| + ChunkSize - 1) / ChunkSize
    decreases |line|
  {
    if line != [] && |line| > ChunkSize {
      var rest := line[ChunkSize..];
      ChunksSpellLine(rest);
      assert Chunks(line) == [line[..ChunkSize]] + Chunks(rest);
      assert Chunks(line)[1..] == Chunks(rest);
      assert line[..ChunkSize] + rest == line;
    }
  }

  // ---------------------------------------------------------------------
  // The texts that a message contributes, in order
  // ---------------------------------------------------------------------

  /** The text made of chunk number `pos` of a line: continuation chunks carry `Prefix`. */
  function ChunkText(chunk: seq<byte>, pos: nat): seq<byte>
  {
    if pos > 0 then Prefix + chunk else chunk
  }

  /** What chunk number `pos` contributes: its text if it is well-formed UTF-8, nothing otherwise. */
  function Piece(chunk: seq<byte>, pos: nat): seq<seq<byte>>
  {
    if Valid(chunk) then [ChunkText(chunk, pos)] else []
  }

  /** The texts contributed by the first `k` chunks of a line. */
  function PieceTexts(chunks: seq<seq<byte>>, k: nat): seq<seq<byte>>
    requires k <= |chunks|
  {
    if k == 0 then [] else PieceTexts(chunks, k - 1) + Piece(chunks[k - 1], k - 1)
  }

  /** The texts contributed by one line. */
  function LineTexts(line: seq<byte>): seq<seq<byte>>
  {
    PieceTexts(Chunks(line), |Chunks(line)|)
  }

  /** The texts contributed by a sequence of lines, in order. */
  function LinesTexts(lines: seq<seq<byte>>): seq<seq<byte>>
  {
    if lines == [] then [] else LinesTexts(lines[..|lines| - 1]) + LineTexts(lines[|lines| - 1])
  }

  /** The texts contributed by a whole log message. */
  function Texts(logText: seq<byte>): seq<seq<byte>>
  {
    LinesTexts(Lines(logText))
  }

  // ---------------------------------------------------------------------
  // Folding texts into the list of items
  // ---------------------------------------------------------------------

  /**
   * One text arriving at level `level`: if it equals the text of the last
   * item, that item's count goes up by one (its level is kept); otherwise a
   * new item with count 1 is pushed.
   */
  function AddText(items: seq<LogItem>, level: LogLevel, text: seq<byte>): (r: seq<LogItem>)
  {
    if |items| > 0 && items[|items| - 1].text == text then
      items[..|items| - 1] + [items[|items| - 1].(count := items[|items| - 1].count + 1)]
    else
      items + [LogItem(level, text, 1)]
  }

  /** The texts `texts` arriving one after the other at level `level`. */
  function AddAll(items: seq<LogItem>, level: LogLevel, texts: seq<seq<byte>>): seq<LogItem>
  {
    if texts == [] then items
    else AddText(AddAll(items, level, texts[..|texts| - 1]), level, texts[|texts| - 1])
  }

  /** The list of items after the subscriber has handled message `logText` at level `level`. */
  function Capture(items: seq<LogItem>, level: LogLevel, logText: seq<byte>): seq<LogItem>
  {
    AddAll(items, level, Texts(logText))
  }

  // ---------------------------------------------------------------------
  // Invariants of the list of items
  // ---------------------------------------------------------------------

  /** No two adjacent items have the same text. */
  ghost predicate NoAdjacentDuplicates(items: seq<LogItem>)
  {
    forall k :: 0 < k < |items| ==> items[k - 1].text != items[k].text
  }

  /** Every item has a non-empty, well-formed text and a positive count. */
  ghost predicate WellFormedItems(items: seq<LogItem>)
  {
    forall k :: 0 <= k < |items| ==> items[k].text != [] && Valid(items[k].text) && items[k].count >= 1
  }

  /** Sum of the counts of all items. */
  function TotalCount(items: seq<LogItem>): nat
  {
    if items == [] then 0 else TotalCount(items[..|items| - 1]) + items[|items| - 1].count
  }

  /** Number of well-formed chunks among the first `k` of `chunks`. */
  function CountValid(chunks: seq<seq<byte>>, k: nat): nat
    requires k <= |chunks|
  {
    if k == 0 then 0 else CountValid(chunks, k - 1) + (if Valid(chunks[k - 1]) then 1 else 0)
  }

  /** Number of well-formed chunks in all lines of `lines`. */
  function LinesValidChunks(lines: seq<seq<byte>>): nat
  {
    if lines == [] then 0
    else LinesValidChunks(lines[..|lines| - 1]) + CountValid(Chunks(lines[|lines| - 1]), |Chunks(lines[|lines| - 1])|)
  }

  /** Number of well-formed chunks of message `logText`: the chunks that reach the list. */
  function ValidChunkCount(logText: seq<byte>): nat
  {
    LinesValidChunks(Lines(logText))
  }

  // ---------------------------------------------------------------------
  // One text arriving
  // ---------------------------------------------------------------------

  /**
   * A text equal to the last item's text leaves the length unchanged and
   * raises only that item's count, by one, keeping its level; any other text
   * is pushed as a new item with the call's level and count 1. Nothing
   * before the last item changes.
   */
  lemma AddTextEffect(items: seq<LogItem>, level: LogLevel, text: seq<byte>)
    ensures var r := AddText(items, level, text);
      if |items| > 0 && items[|items| - 1].text == text then
        |r| == |items| && r[..|items| - 1] == items[..|items| - 1] &&
        r[|items| - 1].text == text && r[|items| - 1].level == items[|items| - 1].level &&
        r[|items| - 1].count == items[|items| - 1].count + 1
      else
        |r| == |items| + 1 && r[..|items|] == items && r[|items|] == LogItem(level, text, 1)
  {
  }

  /** Each text arriving raises the sum of the counts by exactly one. */
  lemma AddTextTotalCount(items: seq<LogItem>, level: LogLevel, text: seq<byte>)
    ensures TotalCount(AddText(items, level, text)) == TotalCount(items) + 1
  {
  }

  /** Folding one text in keeps adjacent texts distinct. */
  lemma AddTextNoAdjacentDuplicates(items: seq<LogItem>, level: LogLevel, text: seq<byte>)
    requires NoAdjacentDuplicates(items)
    ensures NoAdjacentDuplicates(AddText(items, level, text))
  {
  }

  /** Folding one non-empty, well-formed text in keeps every item well formed. */
  lemma AddTextWellFormed(items: seq<LogItem>, level: LogLevel, text: seq<byte>)
    requires WellFormedItems(items) && text != [] && Valid(text)
    ensures WellFormedItems(AddText(items, level, text))
  {
  }

  // ---------------------------------------------------------------------
  // Many texts arriving
  // ---------------------------------------------------------------------

  /** Folding texts in keeps adjacent texts distinct. */
  lemma {:induction false} AddAllNoAdjacentDuplicates(items: seq<LogItem>, level: LogLevel, texts: seq<seq<byte>>)
    requires NoAdjacentDuplicates(items)
    ensures NoAdjacentDuplicates(AddAll(items, level, texts))
  {
    if texts != [] {
      AddAllNoAdjacentDuplicates(items, level, texts[..|texts| - 1]);
      AddTextNoAdjacentDuplicates(AddAll(items, level, texts[..|texts| - 1]), level, texts[|texts| - 1]);
    }
  }

  /** Folding non-empty, well-formed texts in keeps every item well formed. */
  lemma {:induction false} AddAllWellFormed(items: seq<LogItem>, level: LogLevel, texts: seq<seq<byte>>)
    requires WellFormedItems(items)
    requires forall i :: 0 <= i < |texts| ==> texts[i] != [] && Valid(texts[i])
    ensures WellFormedItems(AddAll(items, level, texts))
  {
    if texts != [] {
      AddAllWellFormed(items, level, texts[..|texts| - 1]);
      AddTextWellFormed(AddAll(items, level, texts[..|texts| - 1]), level, texts[|texts| - 1]);
    }
  }

  /** The sum of the counts rises by the number of texts folded in. */
  lemma {:induction false} AddAllTotalCount(items: seq<LogItem>, level: LogLevel, texts: seq<seq<byte>>)
    ensures TotalCount(AddAll(items, level, texts)) == TotalCount(items) + |texts|
  {
    if texts != [] {
      AddAllTotalCount(items, level, texts[..|texts| - 1]);
      AddTextTotalCount(AddAll(items, level, texts[..|texts| - 1]), level, texts[|texts| - 1]);
    }
  }

  /**
   * `r` grows out of `items` by texts arriving at `level`: no item is
   * removed, no item other than the old last one changes, the old last one
   * keeps its text and level and its count can only rise, and every item
   * added carries `level`.
   */
  ghost predicate Extends(items: seq<LogItem>, r: seq<LogItem>, level: LogLevel)
  {
    |items| <= |r| &&
    (|items| > 0 ==>
      r[..|items| - 1] == items[..|items| - 1] &&
      r[|items| - 1].text == items[|items| - 1].text &&
      r[|items| - 1].level == items[|items| - 1].level &&
      r[|items| - 1].count >= items[|items| - 1].count) &&
    (forall k :: |items| <= k < |r| ==> r[k].level == level)
  }

  lemma ExtendsTransitive(a: seq<LogItem>, b: seq<LogItem>, c: seq<LogItem>, level: LogLevel)
    requires Extends(a, b, level) && Extends(b, c, level)
    ensures Extends(a, c, level)
  {
  }

  lemma AddTextExtends(items: seq<LogItem>, level: LogLevel, text: seq<byte>)
    ensures Extends(items, AddText(items, level, text), level)
  {
  }

  /**
   * Folding texts in never removes an item and never changes an item other
   * than the old last one (which keeps its text and level); every item added
   * carries the call's level; at most one item is added per text; and the
   * last item holds the last text.
   */
  lemma {:induction false} AddAllKeepsOlderItems(items: seq<LogItem>, level: LogLevel, texts: seq<seq<byte>>)
    ensures Extends(items, AddAll(items, level, texts), level)
    ensures |AddAll(items, level, texts)| <= |items| + |texts|
    ensures texts != [] ==>
              |AddAll(items, level, texts)| > 0 &&
              AddAll(items, level, texts)[|AddAll(items, level, texts)| - 1].text == texts[|texts| - 1]
  {
    if texts != [] {
      var prev := AddAll(items, level, texts[..|texts| - 1]);
      AddAllKeepsOlderItems(items, level, texts[..|texts| - 1]);
      AddTextExtends(prev, level, texts[|texts| - 1]);
      AddTextEffect(prev, level, texts[|texts| - 1]);
      ExtendsTransitive(items, prev, AddText(prev, level, texts[|texts| - 1]), level);
    }
  }

  /** Folding in one more text is one `AddText` step. */
  lemma AddAllSnoc(items: seq<LogItem>, level: LogLevel, texts: seq<seq<byte>>, text: seq<byte>)
    ensures AddAll(items, level, texts + [text]) == AddText(AddAll(items, level, texts), level, text)
  {
  }

  /** Folding in a concatenation is folding in one part after the other. */
  lemma {:induction false} AddAllAppend(items: seq<LogItem>, level: LogLevel, a: seq<seq<byte>>, b: seq<seq<byte>>)
    ensures AddAll(items, level, a + b) == AddAll(AddAll(items, level, a), level, b)
  {
    if b == [] {
      assert a + b == a;
    } else {
      assert (a + b)[..|a + b| - 1] == a + b[..|b| - 1];
      AddAllAppend(items, level, a, b[..|b| - 1]);
    }
  }

  // ---------------------------------------------------------------------
  // The texts of a message
  // ---------------------------------------------------------------------

  /** `Prefix` is itself well-formed UTF-8. */
  lemma PrefixValid()
    ensures Valid(Prefix)
  {
  }

  /** The line's texts are the well-formed chunks, in order, one text each. */
  lemma {:induction false} PieceTextsCount(chunks: seq<seq<byte>>, k: nat)
    requires k <= |chunks|
    ensures |PieceTexts(chunks, k)| == CountValid(chunks, k)
  {
    if k > 0 {
      PieceTextsCount(chunks, k - 1);
    }
  }

  /** Every text a line contributes is non-empty and well-formed UTF-8. */
  lemma {:induction false} PieceTextsWellFormed(chunks: seq<seq<byte>>, k: nat)
    requires k <= |chunks|
    requires forall i :: 0 <= i < |chunks| ==> chunks[i] != []
    ensures forall i :: 0 <= i < |PieceTexts(chunks, k)| ==> PieceTexts(chunks, k)[i] != [] && Valid(PieceTexts(chunks, k)[i])
  {
    if k > 0 {
      PieceTextsWellFormed(chunks, k - 1);
      var c := chunks[k - 1];
      if Valid(c) && k - 1 > 0 {
        PrefixValid();
        ValidConcat(Prefix, c);
      }
    }
  }

  /** Every text of a list of lines is non-empty and well-formed UTF-8, and there is one per well-formed chunk. */
  lemma {:induction false} LinesTextsFacts(lines: seq<seq<byte>>)
    ensures |LinesTexts(lines)| == LinesValidChunks(lines)
    ensures forall i :: 0 <= i < |LinesTexts(lines)| ==> LinesTexts(lines)[i] != [] && Valid(LinesTexts(lines)[i])
  {
    if lines != [] {
      var line := lines[|lines| - 1];
      LinesTextsFacts(lines[..|lines| - 1]);
      ChunksSpellLine(line);
      PieceTextsCount(Chunks(line), |Chunks(line)|);
      PieceTextsWellFormed(Chunks(line), |Chunks(line)|);
    }
  }

  /** When every chunk of a line is well formed, chunk `i` gives text number `i`, prefixed unless it is the first. */
  lemma {:induction false} PieceTextsAllValid(chunks: seq<seq<byte>>, k: nat)
    requires k <= |chunks|
    requires forall i :: 0 <= i < |chunks| ==> Valid(chunks[i])
    ensures |PieceTexts(chunks, k)| == k
    ensures forall i :: 0 <= i < k ==> PieceTexts(chunks, k)[i] == ChunkText(chunks[i], i)
  {
    if k > 0 {
      PieceTextsAllValid(chunks, k - 1);
      var last := ChunkText(chunks[k - 1], k - 1);
      assert Piece(chunks[k - 1], k - 1) == [last] by {
        assert Valid(chunks[k - 1]);
      }
      var prev := PieceTexts(chunks, k - 1);
      assert PieceTexts(chunks, k) == prev + [last];
      forall i | 0 <= i < k
        ensures PieceTexts(chunks, k)[i] == ChunkText(chunks[i], i)
      {
        if i < k - 1 {
          assert (prev + [last])[i] == prev[i];
        } else {
          assert (prev + [last])[i] == last;
        }
      }
    }
  }

  /** Removes a leading `Prefix`, if there is one. */
  function Unprefix(t: seq<byte>): (r: seq<byte>)
  {
    if |t| >= |Prefix| && t[..|Prefix|] == Prefix then t[|Prefix|..] else t
  }

  /** A prefixed text loses exactly its prefix. */
  lemma UnprefixPrefixed(c: seq<byte>)
    ensures Unprefix(Prefix + c) == c
  {
    var t := Prefix + c;
    assert t[..|Prefix|] == Prefix && t[|Prefix|..] == c;
  }

  /** Joins the texts of one line back together: the first as it is, the others without their prefix. */
  function Join(texts: seq<seq<byte>>): seq<byte>
  {
    if texts == [] then []
    else if |texts| == 1 then texts[0]
    else Join(texts[..|texts| - 1]) + Unprefix(texts[|texts| - 1])
  }

  lemma {:induction false} FlattenSnoc(ss: seq<seq<byte>>, x: seq<byte>)
    ensures Flatten(ss + [x]) == Flatten(ss) + x
  {
    if ss != [] {
      assert (ss + [x])[1..] == ss[1..] + [x];
      FlattenSnoc(ss[1..], x);
    }
  }

  /** One more text, without its prefix, joins to one more chunk. */
  lemma {:induction false} JoinSnoc(texts: seq<seq<byte>>, chunks: seq<seq<byte>>, k: nat)
    requires 2 <= k <= |chunks| && |texts| == k
    requires Join(texts[..k - 1]) == Flatten(chunks[..k - 1])
    requires Unprefix(texts[k - 1]) == chunks[k - 1]
    ensures Join(texts) == Flatten(chunks[..k])
  {
    assert chunks[..k] == chunks[..k - 1] + [chunks[k - 1]];
    FlattenSnoc(chunks[..k - 1], chunks[k - 1]);
  }

  lemma {:induction false} JoinChunkTexts(chunks: seq<seq<byte>>, texts: seq<seq<byte>>, k: nat)
    requires k <= |chunks| && |texts| == k
    requires forall i :: 0 <= i < k ==> texts[i] == ChunkText(chunks[i], i)
    ensures Join(texts) == Flatten(chunks[..k])
  {
    if k == 1 {
      assert chunks[..1] == [chunks[0]];
      assert Flatten([chunks[0]]) == chunks[0] + Flatten([]);
    } else if k > 1 {
      var front := texts[..k - 1];
      assert forall i :: 0 <= i < k - 1 ==> front[i] == ChunkText(chunks[i], i) by {
        forall i | 0 <= i < k - 1 ensures front[i] == ChunkText(chunks[i], i) {
          assert front[i] == texts[i];
        }
      }
      JoinChunkTexts(chunks, front, k - 1);
      assert Unprefix(texts[k - 1]) == chunks[k - 1] by {
        assert texts[k - 1] == Prefix + chunks[k - 1];
        UnprefixPrefixed(chunks[k - 1]);
      }
      JoinSnoc(texts, chunks, k);
    } else {
      assert chunks[..0] == [];
    }
  }

  /**
   * Round trip: when no chunk of a line is dropped, joining the line's texts
   * (removing the prefix of every continuation text) gives back the line.
   */
  lemma LineRoundTrip(line: seq<byte>)
    requires forall i :: 0 <= i < |Chunks(line)| ==> Valid(Chunks(line)[i])
    ensures Join(LineTexts(line)) == line
    ensures |LineTexts(line)| == |Chunks(line)|
  {
    var chunks := Chunks(line);
    PieceTextsAllValid(chunks, |chunks|);
    JoinChunkTexts(chunks, LineTexts(line), |chunks|);
    assert chunks[..|chunks|] == chunks;
    ChunksSpellLine(line);
  }

  /** An ASCII line is never dropped, so it is recovered from its texts. */
  lemma AsciiLineRoundTrip(line: seq<byte>)
    requires forall j :: 0 <= j < |line| ==> line[j] <= 0x7F
    ensures Join(LineTexts(line)) == line
  {
    ChunksSpellLineAscii(line);
    LineRoundTrip(line);
  }

  lemma {:induction false} ChunksSpellLineAscii(line: seq<byte>)
    requires forall j :: 0 <= j < |line| ==> line[j] <= 0x7F
    ensures forall i :: 0 <= i < |Chunks(line)| ==> Valid(Chunks(line)[i])
    decreases |line|
  {
    if line != [] {
      if |line| <= ChunkSize {
        AsciiValid(line);
      } else {
        AsciiValid(line[..ChunkSize]);
        ChunksSpellLineAscii(line[ChunkSize..]);
        assert Chunks(line) == [line[..ChunkSize]] + Chunks(line[ChunkSize..]);
      }
    }
  }

  /** A non-empty well-formed line of at most 130 bytes becomes exactly one text: itself, without prefix. */
  lemma ShortLineKeptWhole(line: seq<byte>)
    requires 0 < |line| <= ChunkSize && Valid(line)
    ensures LineTexts(line) == [line]
  {
    assert Chunks(line) == [line];
    assert Piece(line, 0) == [line];
    assert LineTexts(line) == PieceTexts([line], 0) + Piece(line, 0);
  }

  /** End of chunk `i` of a line of length `n`. */
  function ChunkEnd(i: nat, n: nat): nat
  {
    if ChunkSize * (i + 1) <= n then ChunkSize * (i + 1) else n
  }

  /** Chunk `i` of a line is the bytes from `130 * i` up to `130 * (i + 1)` or the end of the line. */
  lemma {:induction false} ChunkAt(line: seq<byte>, i: nat)
    requires ChunkSize * i < |line|
    ensures i < |Chunks(line)|
    ensures ChunkSize * i <= ChunkEnd(i, |line|) <= |line|
    ensures Chunks(line)[i] == line[ChunkSize * i..ChunkEnd(i, |line|)]
    decreases i
  {
    if |line| <= ChunkSize {
      assert i == 0;
      assert Chunks(line) == [line];
    } else {
      var rest := line[ChunkSize..];
      assert Chunks(line) == [line[..ChunkSize]] + Chunks(rest);
      if i > 0 {
        ChunkAt(rest, i - 1);
        assert ChunkEnd(i - 1, |rest|) + ChunkSize == ChunkEnd(i, |line|);
        assert rest[ChunkSize * (i - 1)..ChunkEnd(i - 1, |rest|)] == line[ChunkSize * i..ChunkEnd(i, |line|)];
      }
    }
  }

  /**
   * The 130-byte cuts ignore character boundaries: when cut number `k` falls
   * inside a character of a well-formed line (the byte after the cut is a
   * continuation byte), neither the chunk before the cut nor the chunk after
   * it passes the UTF-8 check, so both are lost.
   */
  lemma CutInsideCharacter(line: seq<byte>, k: nat)
    requires Valid(line) && 0 < k && ChunkSize * k < |line| && IsCont(line[ChunkSize * k])
    ensures k < |Chunks(line)|
    ensures !Valid(Chunks(line)[k - 1]) && !Valid(Chunks(line)[k])
    ensures Piece(Chunks(line)[k - 1], k - 1) == [] && Piece(Chunks(line)[k], k) == []
  {
    var cut := ChunkSize * k;
    var start := ChunkSize * (k - 1);
    ChunkAt(line, k);
    ChunkAt(line, k - 1);
    var before, after := Chunks(line)[k - 1], Chunks(line)[k];
    assert ChunkEnd(k - 1, |line|) == cut;
    assert before == line[start..cut];
    assert after[0] == line[cut];
    StartsWithContinuationInvalid(after);
    if IsCont(line[start]) {
      assert before[0] == line[start];
      StartsWithContinuationInvalid(before);
    } else if Valid(before) {
      ValidFromBoundary(line, start);
      var tail := line[cut..];
      assert line[start..] == before + tail;
      ValidSuffix(before, tail);
      StartsWithContinuationInvalid(tail);
    }
  }

  /**
   * For example, a well-formed 131-byte line whose cut falls inside its final
   * two-byte character has two chunks, neither well formed, and contributes
   * no text at all.
   */
  lemma SplitCharacterIsDropped()
    ensures var line := seq(129, _ => 0x61 as byte) + [0xC3, 0xA9];
      Valid(line) && |Chunks(line)| == 2 && LineTexts(line) == []
  {
    var ascii := seq(129, _ => 0x61 as byte);
    var e: seq<byte> := [0xC3, 0xA9];
    var line := ascii + e;
    AsciiValid(ascii);
    assert LeadWidth(e) == 2 && e[2..] == [];
    ValidConcat(ascii, e);
    var c0, c1 := line[..ChunkSize], line[ChunkSize..];
    assert c1 == [0xA9];
    assert Chunks(c1) == [c1];
    assert Chunks(line) == [c0, c1];
    EndsWithLeadInvalid(c0);
    StartsWithContinuationInvalid(c1);
    assert PieceTexts([c0, c1], 1) == PieceTexts([c0, c1], 0) + Piece(c0, 0) == [];
    assert LineTexts(line) == PieceTexts([c0, c1], 1) + Piece(c1, 1);
  }

  /** Empty lines contribute nothing: a message made only of line feeds leaves the list as it was. */
  lemma {:induction false} OnlyLineFeedsAddNothing(items: seq<LogItem>, level: LogLevel, logText: seq<byte>)
    requires forall j :: 0 <= j < |logText| ==> logText[j] == LF
    ensures Capture(items, level, logText) == items
  {
    EmptyLines(logText);
    NoTextsFromEmptyLines(Lines(logText));
  }

  lemma {:induction false} EmptyLines(s: seq<byte>)
    requires forall j :: 0 <= j < |s| ==> s[j] == LF
    ensures forall i :: 0 <= i < |Lines(s)| ==> Lines(s)[i] == []
    decreases |s|
  {
    if s != [] {
      assert LineEnd(s) == 0;
      EmptyLines(s[1..]);
    }
  }

  lemma {:induction false} NoTextsFromEmptyLines(lines: seq<seq<byte>>)
    requires forall i :: 0 <= i < |lines| ==> lines[i] == []
    ensures LinesTexts(lines) == []
  {
    if lines != [] {
      NoTextsFromEmptyLines(lines[..|lines| - 1]);
    }
  }

  // ---------------------------------------------------------------------
  // A whole message arriving
  // ---------------------------------------------------------------------

  /**
   * Handling a message keeps adjacent texts distinct and items well formed,
   * and raises the sum of the counts by exactly the number of well-formed
   * chunks of the message.
   */
  lemma CaptureFacts(items: seq<LogItem>, level: LogLevel, logText: seq<byte>)
    ensures NoAdjacentDuplicates(items) ==> NoAdjacentDuplicates(Capture(items, level, logText))
    ensures WellFormedItems(items) ==> WellFormedItems(Capture(items, level, logText))
    ensures TotalCount(Capture(items, level, logText)) == TotalCount(items) + ValidChunkCount(logText)
  {
    var texts := Texts(logText);
    LinesTextsFacts(Lines(logText));
    AddAllTotalCount(items, level, texts);
    if NoAdjacentDuplicates(items) {
      AddAllNoAdjacentDuplicates(items, level, texts);
    }
    if WellFormedItems(items) {
      AddAllWellFormed(items, level, texts);
    }
  }

  // ---------------------------------------------------------------------
  // The shared list and its subscriber
  // ---------------------------------------------------------------------

  /** The shared list of captured log items (`LOG_LOG`). */
  class LogLog {
    var items: seq<LogItem>

    /** No two adjacent items have equal text, and every item is well formed. */
    ghost predicate Valid()
      reads this
    {
      NoAdjacentDuplicates(items) && WellFormedItems(items)
    }

    constructor ()
      ensures items == [] && Valid()
    {
      items := [];
    }

    /** The subscriber: handles one log message `logText` logged at `level`. */
    method OnLog(level: LogLevel, logText: seq<byte>)
      modifies this
      ensures items == Capture(old(items), level, logText)
      ensures old(Valid()) ==> Valid()
      ensures TotalCount(items) == old(TotalCount(items)) + ValidChunkCount(logText)
    {
      ghost var start := items;
      var lines := Lines(logText);
      var i := 0;
      while i < |lines|
        invariant 0 <= i <= |lines|
        invariant items == AddAll(start, level, LinesTexts(lines[..i]))
      {
        CaptureLine(level, lines[i]);
        assert lines[..i + 1][..i] == lines[..i];
        AddAllAppend(start, level, LinesTexts(lines[..i]), LineTexts(lines[i]));
        i := i + 1;
      }
      assert lines[..|lines|] == lines;
      CaptureFacts(start, level, logText);
    }

    /**
     * One chunk's text reaching the list: bump the last item's count if it
     * has the same text, push a new item otherwise.
     */
    method Absorb(level: LogLevel, subString: seq<byte>)
      modifies this
      ensures items == AddText(old(items), level, subString)
    {
      if |items| > 0 && items[|items| - 1].text == subString {
        items := items[..|items| - 1] + [items[|items| - 1].(count := items[|items| - 1].count + 1)];
        return;
      }
      items := items + [LogItem(level, subString, 1)];
    }

    /** The body of the subscriber's outer loop: the chunks of one line, in order. */
    method CaptureLine(level: LogLevel, lineText: seq<byte>)
      modifies this
      ensures items == AddAll(old(items), level, LineTexts(lineText))
    {
      var subs := Chunks(lineText);
      ghost var texts: seq<seq<byte>> := [];
      var pos := 0;
      while pos < |subs|
        invariant 0 <= pos <= |subs|
        invariant texts == PieceTexts(subs, pos)
        invariant items == AddAll(old(items), level, texts)
      {
        var sub := subs[pos];
        if Utf8.Valid(sub) {
          var subString := sub;
          if pos > 0 {
            subString := Prefix + subString;
          }
          assert subString == ChunkText(sub, pos);
          assert PieceTexts(subs, pos + 1) == texts + [subString];
          AddAllSnoc(old(items), level, texts, subString);
          Absorb(level, subString);
          texts := texts + [subString];
        } else {
          assert PieceTexts(subs, pos + 1) == texts + [];
        }
        pos := pos + 1;
      }
    }
  }
}
