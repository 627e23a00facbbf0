/**
 * The two bounded line readers: the one that replays a Realm's log file and the one behind the
 * interactive prompt. Both pull a byte stream through a buffer whose fills may break anywhere, and
 * both are proved against the same split of the whole stream at its newlines.
 */
module LineReader {
  import opened Basics

  const NEWLINE: Byte := 10
  const CARRIAGE_RETURN: Byte := 13

  // ---- the stream, split into lines ----

  /** The length of the first line, its newline included; the last line may lack one. */
  function LineLength(s: Bytes): (n: nat)
    ensures n <= |s| && (s != [] ==> n > 0)
  {
    if s == [] then 0 else if s[0] == NEWLINE then 1 else 1 + LineLength(s[1..])
  }

  /** The first line ends at the first newline, or with the stream. */
  lemma {:induction false} LineLengthIs(s: Bytes)
    ensures forall i | 0 <= i < LineLength(s) - 1 :: s[i] != 10
    ensures LineLength(s) < |s| ==> s[LineLength(s) - 1] == 10
  {
    if s != [] && s[0] != NEWLINE {
      LineLengthIs(s[1..]);
    }
  }

  function EndsLine(s: Bytes): bool {
    s != [] && s[|s| - 1] == NEWLINE
  }

  /** A line without its terminator, which is a newline with or without a carriage return before it. */
  function Stripped(line: Bytes): Bytes {
    if !EndsLine(line) then line
    else
      var body := line[..|line| - 1];
      if body != [] && body[|body| - 1] == CARRIAGE_RETURN then body[..|body| - 1] else body
  }

  // ---- a buffered reader ----

  function Concat(chunks: seq<Bytes>): Bytes {
    if chunks == [] then [] else chunks[0] + Concat(chunks[1..])
  }

  class BufReader {
    // What future fills of the buffer will offer; no fill is empty before the end.
    var chunks: seq<Bytes>

    ghost predicate Valid()
      reads this
    {
      forall i | 0 <= i < |chunks| :: chunks[i] != []
    }

    ghost function Stream(): Bytes
      reads this
    {
      Concat(chunks)
    }

    constructor (chunks: seq<Bytes>)
      requires forall i | 0 <= i < |chunks| :: chunks[i] != []
      ensures Valid() && Stream() == Concat(chunks)
    {
      this.chunks := chunks;
    }

    method FillBuf() returns (available: Bytes)
      requires Valid()
      ensures available <= Stream()
      ensures available == [] <==> Stream() == []
      ensures available == if chunks == [] then [] else chunks[0]
    {
      return if chunks == [] then [] else chunks[0];
    }

    method Consume(n: nat)
      requires Valid() && (chunks == [] ==> n == 0) && (chunks != [] ==> n <= |chunks[0]|)
      modifies this
      ensures Valid() && Stream() == old(Stream())[n..]
    {
      if chunks != [] {
        assert Concat(chunks)[n..] == chunks[0][n..] + Concat(chunks[1..]);
        if n == |chunks[0]| {
          chunks := chunks[1..];
        } else {
          chunks := [chunks[0][n..]] + chunks[1..];
        }
      }
    }
  }

  /** How much of a fill belongs to the current line. */
  method TakeFrom(available: Bytes) returns (take: nat, found: bool)
    ensures take == LineLength(available) && found == EndsLine(available[..take])
  {
    take := 0;
    while take < |available| && available[take] != NEWLINE
      invariant take <= |available| && LineLength(available) == take + LineLength(available[take..])
      invariant forall i | 0 <= i < take :: available[i] != NEWLINE
    {
      assert available[take..][1..] == available[take + 1..];
      take := take + 1;
    }
    found := take < |available|;
    if found {
      take := take + 1;
    }
  }

  /** The first line of a stream that begins with an unfinished line continues in what follows it. */
  lemma {:induction false} LineContinues(a: Bytes, b: Bytes)
    ensures LineLength(a + b) == if EndsLine(a[..LineLength(a)]) then LineLength(a) else |a| + LineLength(b)
  {
    if a == [] {
      assert a + b == b;
    } else {
      assert (a + b)[1..] == a[1..] + b;
      LineContinues(a[1..], b);
      if a[0] != NEWLINE {
        assert a[..LineLength(a)][1..] == a[1..][..LineLength(a[1..])];
      }
    }
  }

  // ---- one line ----

  /** `out` has been taken from the front of `s`, is not past the first newline, and `rest` is left. */
  ghost predicate Gathered(s: Bytes, out: Bytes, rest: Bytes) {
    s == out + rest && forall i | 0 <= i < |out| - 1 :: out[i] != NEWLINE
  }

  /** Bytes with a newline at most at their end are one line. */
  lemma {:induction false} WholeLine(out: Bytes)
    requires forall i | 0 <= i < |out| - 1 :: out[i] != NEWLINE
    ensures LineLength(out) == |out| && out[..|out|] == out
  {
    if |out| > 1 {
      WholeLine(out[1..]);
    }
  }

  lemma GatherLength(s: Bytes, out: Bytes, available: Bytes, after: Bytes)
    requires Gathered(s, out, available + after) && !EndsLine(out)
    ensures LineLength(s) >= |out| + LineLength(available)
  {
    WholeLine(out);
    LineContinues(out, available + after);
    LineContinues(available, after);
  }

  lemma GatherShape(s: Bytes, out: Bytes, rest: Bytes, piece: Bytes)
    requires Gathered(s, out, rest) && !EndsLine(out) && piece <= rest && piece != []
    requires forall i | 0 <= i < |piece| - 1 :: piece[i] != NEWLINE
    ensures Gathered(s, out + piece, rest[|piece|..]) && EndsLine(out + piece) == EndsLine(piece)
  {
    assert s == out + piece + rest[|piece|..];
    forall i | 0 <= i < |out + piece| - 1
      ensures (out + piece)[i] != NEWLINE
    {
    }
  }

  lemma GatherMore(s: Bytes, out: Bytes, rest: Bytes, available: Bytes)
    requires Gathered(s, out, rest) && !EndsLine(out) && available <= rest && available != []
    ensures var take := LineLength(available);
            && Gathered(s, out + available[..take], rest[take..]) && LineLength(s) >= |out| + take
            && EndsLine(out + available[..take]) == EndsLine(available[..take])
  {
    hide LineLength, EndsLine;
    assert rest == available + rest[|available|..];
    GatherLength(s, out, available, rest[|available|..]);
    LineLengthIs(available);
    GatherShape(s, out, rest, available[..LineLength(available)]);
  }

  lemma GatherDone(s: Bytes, out: Bytes, rest: Bytes)
    requires Gathered(s, out, rest) && (EndsLine(out) || rest == [])
    ensures LineLength(s) == |out| && s[..|out|] == out && s[|out|..] == rest
  {
    WholeLine(out);
    LineContinues(out, rest);
    assert rest == [] ==> s == out;
  }

  method Strip(out: Bytes) returns (line: Bytes)
    ensures line == Stripped(out)
  {
    line := out;
    if line != [] && line[|line| - 1] == NEWLINE {
      line := line[..|line| - 1];
      if line != [] && line[|line| - 1] == CARRIAGE_RETURN {
        line := line[..|line| - 1];
      }
    }
  }

  /** What is left is a tail of `s`, at most `most` bytes shorter. */
  ghost predicate TookAtMost(most: nat, s: Bytes, rest: Bytes) {
    |rest| <= |s| <= |rest| + most && rest == s[|s| - |rest|..]
  }

  /** Pull fills until the line ends, or until the next piece would pass the cap. */
  method GatherLine(reader: BufReader, cap: nat) returns (out: Bytes, fits: bool)
    requires reader.Valid()
    modifies reader
    ensures reader.Valid()
    ensures var s := old(reader.Stream());
            && fits == (LineLength(s) <= cap)
            && (fits ==> out == s[..LineLength(s)] && reader.Stream() == s[LineLength(s)..])
            && (!fits ==> TookAtMost(cap, s, reader.Stream()))
  {
    hide LineLength, EndsLine, TookAtMost;
    ghost var s := reader.Stream();
    out := [];
    NoLine();
    while true
      invariant reader.Valid() && |out| <= cap && Gathered(s, out, reader.Stream()) && !EndsLine(out)
      decreases |reader.Stream()|
    {
      var available := reader.FillBuf();
      if available == [] {
        GatherDone(s, out, reader.Stream());
        return out, true;
      }
      var take, newline := TakeFrom(available);
      GatherMore(s, out, reader.Stream(), available);
      if |out| + take > cap {
        TookSoFar(s, out, reader.Stream(), cap);
        return out, false;
      }
      out := out + available[..take];
      reader.Consume(take);
      if newline {
        GatherDone(s, out, reader.Stream());
        return out, true;
      }
    }
  }

  lemma TookSoFar(s: Bytes, out: Bytes, rest: Bytes, most: nat)
    requires Gathered(s, out, rest) && |out| <= most
    ensures TookAtMost(most, s, rest)
  {
  }

  /**
   * One line of a log file. The verdict looks only at the line itself, wherever the fills break: it
   * is refused exactly when it is longer than `cap` with its terminator, and at most `cap` bytes are
   * ever taken from the stream for it.
   */
  method ReadLogLine(reader: BufReader, cap: nat, utf8: Bytes -> bool) returns (r: Result<Option<Bytes>>)
    requires reader.Valid()
    modifies reader
    ensures reader.Valid()
    ensures var s := old(reader.Stream());
            var n := LineLength(s);
            if s == [] then r == Ok(None) && reader.Stream() == []
            else if n > cap then r == Err(Limit) && TookAtMost(cap, s, reader.Stream())
            else reader.Stream() == s[n..]
                 && r == if utf8(Stripped(s[..n])) then Ok(Some(Stripped(s[..n]))) else Err(Corrupt)
  {
    hide EndsLine, Stripped, TookAtMost;
    var out, fits := GatherLine(reader, cap);
    if !fits {
      return Err(Limit);
    }
    if out == [] {
      return Ok(None);
    }
    var line := Strip(out);
    return if utf8(line) then Ok(Some(line)) else Err(Corrupt);
  }

  lemma NoLine()
    ensures LineLength([]) == 0 && !EndsLine([])
  {
  }

  datatype ReplLine = Line(text: Bytes) | Eof | TooLong

  /** Discard the rest of the current line. */
  method DrainLine(reader: BufReader)
    requires reader.Valid()
    modifies reader
    ensures reader.Valid() && reader.Stream() == old(reader.Stream())[LineLength(old(reader.Stream()))..]
  {
    hide LineLength, EndsLine;
    ghost var s := reader.Stream();
    ghost var out: Bytes := [];
    NoLine();
    while true
      invariant reader.Valid() && Gathered(s, out, reader.Stream()) && !EndsLine(out)
      decreases |reader.Stream()|
    {
      var available := reader.FillBuf();
      if available == [] {
        GatherDone(s, out, reader.Stream());
        return;
      }
      var take, newline := TakeFrom(available);
      GatherMore(s, out, reader.Stream(), available);
      reader.Consume(take);
      out := out + available[..take];
      if newline {
        GatherDone(s, out, reader.Stream());
        return;
      }
    }
  }

  /**
   * One line of interactive input. An over-long line is skipped whole: the reader always ends up
   * exactly after the line, however the fills break.
   */
  method ReadReplLine(reader: BufReader, max: nat, utf8: Bytes -> bool) returns (r: Result<ReplLine>)
    requires reader.Valid()
    modifies reader
    ensures reader.Valid()
    ensures var s := old(reader.Stream());
            var n := LineLength(s);
            && reader.Stream() == s[n..]
            && r == if s == [] then Ok(Eof)
                    else if n > max then Ok(TooLong)
                    else if utf8(Stripped(s[..n])) then Ok(Line(Stripped(s[..n])))
                    else Err(Invalid)
  {
    hide LineLength, EndsLine, Stripped;
    ghost var s := reader.Stream();
    var out: Bytes := [];
    NoLine();
    while true
      invariant reader.Valid() && |out| <= max && Gathered(s, out, reader.Stream()) && !EndsLine(out)
      decreases |reader.Stream()|
    {
      var available := reader.FillBuf();
      if available == [] {
        GatherDone(s, out, reader.Stream());
        if out == [] {
          return Ok(Eof);
        }
        var line := Strip(out);
        return if utf8(line) then Ok(Line(line)) else Err(Invalid);
      }
      var take, newline := TakeFrom(available);
      GatherMore(s, out, reader.Stream(), available);
      reader.Consume(take);
      if |out| + take > max {
        SkipRest(s, out + available[..take], reader.Stream());
        if newline {
          GatherDone(s, out + available[..take], reader.Stream());
        } else {
          DrainLine(reader);
        }
        return Ok(TooLong);
      }
      out := out + available[..take];
      if newline {
        GatherDone(s, out, reader.Stream());
        var line := Strip(out);
        return if utf8(line) then Ok(Line(line)) else Err(Invalid);
      }
    }
  }

  lemma SkipRest(s: Bytes, out: Bytes, rest: Bytes)
    requires Gathered(s, out, rest)
    ensures !EndsLine(out) ==> s[LineLength(s)..] == rest[LineLength(rest)..]
  {
    WholeLine(out);
    LineContinues(out, rest);
  }

  // ---- a whole file ----

  /** The lines of a stream, terminators included. */
  function Lines(s: Bytes): seq<Bytes> {
    if s == [] then [] else [s[..LineLength(s)]] + Lines(s[LineLength(s)..])
  }

  /** What reading a log to its end gives: every line, or the first refusal. */
  function LogLines(cap: nat, utf8: Bytes -> bool, s: Bytes): Result<seq<Bytes>> {
    if s == [] then Ok([])
    else
      var n := LineLength(s);
      var line := Stripped(s[..n]);
      if n > cap then Err(Limit)
      else if !utf8(line) then Err(Corrupt)
      else
        match LogLines(cap, utf8, s[n..])
        case Ok(more) => Ok([line] + more)
        case Err(e) => Err(e)
  }

  function Prepend(lines: seq<Bytes>, r: Result<seq<Bytes>>): Result<seq<Bytes>> {
    match r
    case Ok(more) => Ok(lines + more)
    case Err(e) => Err(e)
  }

  method ReadLog(reader: BufReader, cap: nat, utf8: Bytes -> bool) returns (r: Result<seq<Bytes>>)
    requires reader.Valid()
    modifies reader
    ensures r == LogLines(cap, utf8, old(reader.Stream()))
  {
    hide LineLength, Stripped;
    var lines: seq<Bytes> := [];
    PrependNone(LogLines(cap, utf8, reader.Stream()));
    while true
      invariant reader.Valid()
      invariant LogLines(cap, utf8, old(reader.Stream())) == Prepend(lines, LogLines(cap, utf8, reader.Stream()))
      decreases |reader.Stream()|
    {
      ghost var s := reader.Stream();
      var line := ReadLogLine(reader, cap, utf8);
      if line.Err? {
        return Err(line.error);
      }
      if line.value.None? {
        assert lines + [] == lines;
        return Ok(lines);
      }
      PrependOne(cap, utf8, lines, s);
      lines := lines + [line.value.value];
    }
  }

  lemma PrependNone(r: Result<seq<Bytes>>)
    ensures Prepend([], r) == r
  {
    if r.Ok? {
      assert [] + r.value == r.value;
    }
  }

  lemma PrependTwice(a: seq<Bytes>, b: seq<Bytes>, r: Result<seq<Bytes>>)
    ensures Prepend(a, Prepend(b, r)) == Prepend(a + b, r)
  {
    if r.Ok? {
      assert a + (b + r.value) == a + b + r.value;
    }
  }

  lemma PrependOne(cap: nat, utf8: Bytes -> bool, lines: seq<Bytes>, s: Bytes)
    requires s != [] && LineLength(s) <= cap && utf8(Stripped(s[..LineLength(s)]))
    ensures Prepend(lines, LogLines(cap, utf8, s)) ==
            Prepend(lines + [Stripped(s[..LineLength(s)])], LogLines(cap, utf8, s[LineLength(s)..]))
  {
    hide LineLength, Stripped;
    var more := LogLines(cap, utf8, s[LineLength(s)..]);
    if more.Ok? {
      assert lines + ([Stripped(s[..LineLength(s)])] + more.value) == lines + [Stripped(s[..LineLength(s)])] + more.value;
    }
  }

  /** Splitting loses nothing. */
  lemma {:induction false} LinesCover(s: Bytes)
    ensures Concat(Lines(s)) == s
  {
    if s != [] {
      LinesCover(s[LineLength(s)..]);
    }
  }

  lemma FirstLineEnds(a: Bytes, b: Bytes)
    requires EndsLine(a)
    ensures var n := LineLength(a);
            && (a[n..] == [] || EndsLine(a[n..]))
            && LineLength(a + b) == n && (a + b)[..n] == a[..n] && (a + b)[n..] == a[n..] + b
  {
    LineLengthIs(a);
    LineContinues(a, b);
  }

  lemma FirstOfLines(s: Bytes)
    requires s != []
    ensures Lines(s) == [s[..LineLength(s)]] + Lines(s[LineLength(s)..])
  {
    hide LineLength;
  }

  /** A stream cut after a newline splits there, however long its lines. */
  lemma {:induction false} LinesSplit(a: Bytes, b: Bytes)
    requires a == [] || EndsLine(a)
    ensures Lines(a + b) == Lines(a) + Lines(b)
    decreases |a|
  {
    if a == [] {
      assert a + b == b && [] + Lines(b) == Lines(b);
    } else {
      hide LineLength, EndsLine, Lines;
      var n := LineLength(a);
      FirstLineEnds(a, b);
      FirstOfLines(a);
      FirstOfLines(a + b);
      LinesSplit(a[n..], b);
      assert [a[..n]] + (Lines(a[n..]) + Lines(b)) == [a[..n]] + Lines(a[n..]) + Lines(b);
    }
  }

  // ---- what is written is what is read ----

  /** The file image of a list of lines. */
  function Joined(texts: seq<Bytes>): Bytes {
    if texts == [] then [] else texts[0] + [NEWLINE] + Joined(texts[1..])
  }

  predicate OneLine(text: Bytes) {
    NEWLINE !in text
  }

  predicate Readable(cap: nat, utf8: Bytes -> bool, text: Bytes) {
    |text| + 1 <= cap && utf8(text) && !(text != [] && text[|text| - 1] == CARRIAGE_RETURN)
  }

  lemma FirstJoined(text: Bytes, rest: Bytes)
    requires OneLine(text)
    ensures var s := text + [NEWLINE] + rest;
            LineLength(s) == |text| + 1 && s[..LineLength(s)] == text + [NEWLINE] && s[LineLength(s)..] == rest
  {
    WholeLine(text + [NEWLINE]);
    LineContinues(text + [NEWLINE], rest);
  }

  lemma StrippedText(text: Bytes)
    ensures Stripped(text + [NEWLINE]) == text <==> !(text != [] && text[|text| - 1] == 13)
    ensures Stripped(text + [13, NEWLINE]) == text
    ensures Stripped(text) == text <==> !(text != [] && text[|text| - 1] == 10)
  {
    assert (text + [13, NEWLINE])[..|text| + 1] == text + [13] && (text + [13])[..|text|] == text;
    assert (text + [NEWLINE])[..|text|] == text;
  }

  lemma LogLinesCons(cap: nat, utf8: Bytes -> bool, text: Bytes, rest: Bytes)
    requires OneLine(text)
    ensures LogLines(cap, utf8, text + [NEWLINE] + rest) ==
            if |text| + 1 > cap then Err(Limit)
            else if !utf8(Stripped(text + [NEWLINE])) then Err(Corrupt)
            else Prepend([Stripped(text + [NEWLINE])], LogLines(cap, utf8, rest))
  {
    hide LineLength, Stripped;
    FirstJoined(text, rest);
  }

  /**
   * The round trip: a file of newline-terminated lines reads back as exactly those lines if and only
   * if each fits the cap with its newline, decodes, and does not end in a carriage return.
   */
  lemma {:induction false} LogRoundTrip(cap: nat, utf8: Bytes -> bool, texts: seq<Bytes>)
    requires forall i | 0 <= i < |texts| :: OneLine(texts[i])
    ensures LogLines(cap, utf8, Joined(texts)) == Ok(texts) <==>
              forall i | 0 <= i < |texts| :: Readable(cap, utf8, texts[i])
  {
    if texts != [] {
      hide LogLines, Stripped, Readable;
      var rest := texts[1..];
      LogLinesCons(cap, utf8, texts[0], Joined(rest));
      FirstReadable(cap, utf8, texts[0]);
      LogRoundTrip(cap, utf8, rest);
      assert texts == [texts[0]] + rest;
      assert forall i | 0 <= i < |rest| :: rest[i] == texts[i + 1];
    }
  }

  lemma FirstReadable(cap: nat, utf8: Bytes -> bool, text: Bytes)
    ensures Readable(cap, utf8, text) <==>
              |text| + 1 <= cap && Stripped(text + [NEWLINE]) == text && utf8(text)
  {
    StrippedText(text);
  }

  // ---- a torn last line ----

  lemma {:induction false} JoinedEnds(texts: seq<Bytes>)
    ensures Joined(texts) == [] || EndsLine(Joined(texts))
  {
    if texts != [] {
      JoinedEnds(texts[1..]);
    }
  }

  /**
   * An append that stops part way leaves every earlier line as it was and at most one fragment after
   * them.
   */
  lemma TornAppendKeepsLines(texts: seq<Bytes>, text: Bytes, torn: Bytes)
    requires forall i | 0 <= i < |texts| :: OneLine(texts[i])
    requires OneLine(text) && torn <= text + [NEWLINE]
    ensures Lines(Joined(texts) + torn) == Lines(Joined(texts)) + if torn == [] then [] else [torn]
  {
    JoinedEnds(texts);
    LinesSplit(Joined(texts), torn);
    WholeLine(torn);
  }

  /**
   * Lines appended later stay lines of their own exactly when the file they are appended to is empty
   * or ends in a newline. After a write that lost only its newline they do not: the unterminated
   * record is accepted by replay, and the next record lands on the same line.
   */
  lemma AppendsStayApartIff(image: Bytes, more: seq<Bytes>)
    requires more != [] && forall i | 0 <= i < |more| :: OneLine(more[i])
    ensures Lines(image + Joined(more)) == Lines(image) + Lines(Joined(more)) <==> image == [] || EndsLine(image)
  {
    if image == [] || EndsLine(image) {
      LinesSplit(image, Joined(more));
    } else {
      MergedCount(image, Joined(more));
    }
  }

  /** After an unterminated end the next line is absorbed, so there is one line fewer. */
  lemma {:induction false} MergedCount(a: Bytes, b: Bytes)
    requires a != [] && !EndsLine(a) && b != []
    ensures |Lines(a + b)| == |Lines(a)| + |Lines(b)| - 1
    decreases |a|
  {
    var n := LineLength(a);
    LineLengthIs(a);
    LineContinues(a, b);
    if n < |a| {
      assert (a + b)[n..] == a[n..] + b;
      assert EndsLine(a[..n]);
      MergedCount(a[n..], b);
    } else {
      assert a[..n] == a && a[n..] == [];
      assert (a + b)[|a| + LineLength(b)..] == b[LineLength(b)..];
    }
  }

  lemma Regroup(a: Bytes, b: Bytes, c: Bytes)
    ensures a + b + (c + [NEWLINE]) == a + (b + c + [NEWLINE] + [])
    ensures OneLine(b) && OneLine(c) ==> OneLine(b + c)
  {
  }

  lemma NothingToRead(cap: nat, utf8: Bytes -> bool)
    ensures LogLines(cap, utf8, []) == Ok([])
  {
  }

  lemma UnterminatedText(cap: nat, utf8: Bytes -> bool, text: Bytes)
    requires OneLine(text) && text != [] && |text| <= cap && utf8(text)
    ensures LogLines(cap, utf8, text) == Ok([text])
  {
    WholeLine(text);
    assert text[|text| - 1] in text && text[|text|..] == [];
    assert [text] + [] == [text];
  }

  lemma FirstText(texts: seq<Bytes>, rest: Bytes)
    requires texts != []
    ensures Joined(texts) + rest == texts[0] + [NEWLINE] + (Joined(texts[1..]) + rest)
  {
  }

  lemma {:induction false} LogLinesAfter(cap: nat, utf8: Bytes -> bool, texts: seq<Bytes>, rest: Bytes)
    requires forall i | 0 <= i < |texts| :: OneLine(texts[i]) && Readable(cap, utf8, texts[i])
    ensures LogLines(cap, utf8, Joined(texts) + rest) == Prepend(texts, LogLines(cap, utf8, rest))
  {
    if texts == [] {
      assert Joined(texts) + rest == rest;
      PrependNone(LogLines(cap, utf8, rest));
    } else {
      hide LogLines, Stripped, Readable, Joined;
      var (text, more) := (texts[0], texts[1..]);
      FirstText(texts, rest);
      LogLinesCons(cap, utf8, text, Joined(more) + rest);
      FirstReadable(cap, utf8, text);
      LogLinesAfter(cap, utf8, more, rest);
      PrependTwice([text], more, LogLines(cap, utf8, rest));
      assert [text] + more == texts;
    }
  }

  // ---- a whole interactive session ----

  /** What comes of running a line: the prompt goes on, it was asked to quit, or an I/O error ends it. */
  datatype LineOutcome = GoesOn | Quits | Breaks

  datatype ReplEvent = Ran(text: Bytes) | Skipped | Failed(text: Bytes)

  function EventOf(run: Bytes -> LineOutcome, line: Bytes): ReplEvent {
    if run(line).Breaks? then Failed(line) else Ran(line)
  }

  /** What the prompt does with a stream: each line is run or skipped, until end, `quit`, bad text or an error. */
  function Session(max: nat, utf8: Bytes -> bool, run: Bytes -> LineOutcome, s: Bytes): seq<ReplEvent> {
    if s == [] then []
    else
      var n := LineLength(s);
      var line := Stripped(s[..n]);
      if n > max then [Skipped] + Session(max, utf8, run, s[n..])
      else if !utf8(line) then []
      else if !run(line).GoesOn? then [EventOf(run, line)]
      else [Ran(line)] + Session(max, utf8, run, s[n..])
  }

  method RunPrompt(reader: BufReader, max: nat, utf8: Bytes -> bool, run: Bytes -> LineOutcome)
    returns (events: seq<ReplEvent>)
    requires reader.Valid()
    modifies reader
    ensures events == Session(max, utf8, run, old(reader.Stream()))
  {
    hide LineLength, Stripped, Session;
    events := [];
    while true
      invariant reader.Valid()
      invariant Session(max, utf8, run, old(reader.Stream())) == events + Session(max, utf8, run, reader.Stream())
      decreases |reader.Stream()|
    {
      ghost var s := reader.Stream();
      var line := ReadReplLine(reader, max, utf8);
      SessionNext(max, utf8, run, events, s);
      if line.Err? || line.value.Eof? {
        return;
      }
      events := events + [if line.value.TooLong? then Skipped else EventOf(run, line.value.text)];
      if line.value.Line? && !run(line.value.text).GoesOn? {
        return;
      }
    }
  }

  lemma SessionNext(max: nat, utf8: Bytes -> bool, run: Bytes -> LineOutcome, events: seq<ReplEvent>, s: Bytes)
    ensures var n := LineLength(s);
            var line := Stripped(s[..n]);
            events + Session(max, utf8, run, s) ==
            if s == [] then events
            else if n > max then events + [Skipped] + Session(max, utf8, run, s[n..])
            else if !utf8(line) then events
            else if !run(line).GoesOn? then events + [EventOf(run, line)]
            else events + [Ran(line)] + Session(max, utf8, run, s[n..])
  {
    hide LineLength, Stripped;
  }

  /** An over-long line costs the session exactly that line. */
  lemma OverlongLineIsIsolated(max: nat, utf8: Bytes -> bool, run: Bytes -> LineOutcome, long: Bytes, rest: Bytes)
    requires OneLine(long) && |long| + 1 > max
    ensures Session(max, utf8, run, long + [NEWLINE] + rest) == [Skipped] + Session(max, utf8, run, rest)
  {
    FirstJoined(long, rest);
  }

  /** Readable lines, none of which ends it, are run as typed and in order. */
  lemma {:induction false} SessionRoundTrip(
    max: nat, utf8: Bytes -> bool, run: Bytes -> LineOutcome, texts: seq<Bytes>)
    requires forall i | 0 <= i < |texts| :: OneLine(texts[i]) && Readable(max, utf8, texts[i]) && run(texts[i]).GoesOn?
    ensures Session(max, utf8, run, Joined(texts)) == seq(|texts|, i requires 0 <= i < |texts| => Ran(texts[i]))
  {
    if texts != [] {
      hide LineLength, Stripped;
      FirstJoined(texts[0], Joined(texts[1..]));
      StrippedText(texts[0]);
      SessionRoundTrip(max, utf8, run, texts[1..]);
    }
  }
}
