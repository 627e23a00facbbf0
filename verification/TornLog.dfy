/**
 * A Realm file byte by byte: what recovery makes of a file whose last append stopped at any byte, and
 * of one that lost only its last newline and was appended to again.
 */
module TornLog {
  import opened Basics
  import opened Records
  import opened Chain
  import opened LineReader
  import Findings

  /** How records are written as lines, and how lines are read: as text, as blank, as records. */
  datatype Codec = Codec(
    encode: LogRecord -> Bytes, parse: Bytes -> Option<LogRecord>, utf8: Bytes -> bool, blank: Bytes -> bool)

  /**
   * The encoding of a record is one line of text within the limit that reads back as the record, and
   * nothing shorter that it begins with is blank or reads as a record.
   */
  ghost predicate Encodes(codec: Codec, cap: nat, rec: LogRecord) {
    var line := codec.encode(rec);
    && line != [] && OneLine(line) && Readable(cap, codec.utf8, line)
    && codec.parse(line) == Some(rec) && !codec.blank(line)
    && forall n | 0 < n < |line| :: codec.parse(line[..n]) == None && !codec.blank(line[..n])
  }

  function Lined(codec: Codec, log: seq<LogRecord>): (texts: seq<Bytes>)
    ensures |texts| == |log| && forall i | 0 <= i < |log| :: texts[i] == codec.encode(log[i])
  {
    seq(|log|, i requires 0 <= i < |log| => codec.encode(log[i]))
  }

  /** The bytes of a file holding the records of `log`. */
  function Image(codec: Codec, log: seq<LogRecord>): Bytes {
    Joined(Lined(codec, log))
  }

  /** The records of a file's lines; blank lines are skipped. */
  function ParseLines(codec: Codec, lines: seq<Bytes>): Result<seq<LogRecord>> {
    if lines == [] then Ok([])
    else
      match ParseLines(codec, lines[..|lines| - 1])
      case Err(e) => Err(e)
      case Ok(recs) =>
        var line := lines[|lines| - 1];
        if codec.blank(line) then Ok(recs)
        else
          match codec.parse(line)
          case None => Err(Corrupt)
          case Some(rec) => Ok(recs + [rec])
  }

  function ReadRecords(codec: Codec, cap: nat, file: Bytes): Result<seq<LogRecord>> {
    match LogLines(cap, codec.utf8, file)
    case Err(e) => Err(e)
    case Ok(lines) => ParseLines(codec, lines)
  }

  /** Recovery accepts the file: all of it reads as records, and they form a valid chain. */
  ghost predicate FileAccepted(codec: Codec, cap: nat, cfg: Config, rh: RealmHash, file: Bytes) {
    ReadRecords(codec, cap, file).Ok? && ChainOk(cfg, rh, ReadRecords(codec, cap, file).value)
  }

  lemma {:induction false} ParseLined(codec: Codec, cap: nat, log: seq<LogRecord>)
    requires forall i | 0 <= i < |log| :: Encodes(codec, cap, log[i])
    ensures ParseLines(codec, Lined(codec, log)) == Ok(log)
  {
    if log != [] {
      var front := log[..|log| - 1];
      ParseLined(codec, cap, front);
      assert Lined(codec, log)[..|log| - 1] == Lined(codec, front);
      assert Encodes(codec, cap, log[|log| - 1]);
      assert log == front + [log[|log| - 1]];
    }
  }

  lemma ParseOneMore(codec: Codec, cap: nat, log: seq<LogRecord>, line: Bytes)
    requires forall i | 0 <= i < |log| :: Encodes(codec, cap, log[i])
    ensures ParseLines(codec, Lined(codec, log) + [line]) ==
            if codec.blank(line) then Ok(log)
            else match codec.parse(line)
                 case None => Err(Corrupt)
                 case Some(rec) => Ok(log + [rec])
  {
    ParseLined(codec, cap, log);
    assert (Lined(codec, log) + [line])[..|log|] == Lined(codec, log);
  }

  /** The records before are read as they were; what follows them is read as if alone. */
  lemma ImageThen(codec: Codec, cap: nat, log: seq<LogRecord>, rest: Bytes)
    requires forall i | 0 <= i < |log| :: Encodes(codec, cap, log[i])
    ensures LogLines(cap, codec.utf8, Image(codec, log) + rest) ==
            Prepend(Lined(codec, log), LogLines(cap, codec.utf8, rest))
  {
    hide LogLines, Joined;
    forall i | 0 <= i < |log|
      ensures OneLine(Lined(codec, log)[i]) && Readable(cap, codec.utf8, Lined(codec, log)[i])
    {
      assert Encodes(codec, cap, log[i]);
    }
    LogLinesAfter(cap, codec.utf8, Lined(codec, log), rest);
  }

  /** A fragment without a newline is read as one line, if it is text at all. */
  lemma FragmentLine(codec: Codec, cap: nat, fragment: Bytes)
    requires OneLine(fragment) && fragment != [] && |fragment| <= cap
    ensures LogLines(cap, codec.utf8, fragment) == if codec.utf8(fragment) then Ok([fragment]) else Err(Corrupt)
  {
    if codec.utf8(fragment) {
      UnterminatedText(cap, codec.utf8, fragment);
    } else {
      WholeLine(fragment);
      assert fragment[|fragment| - 1] in fragment;
    }
  }

  /** What a file reads as after an append of `rec` that stopped after the bytes of `torn`. */
  lemma TornReads(codec: Codec, cap: nat, log: seq<LogRecord>, rec: LogRecord, torn: Bytes)
    requires forall i | 0 <= i < |log| :: Encodes(codec, cap, log[i])
    requires Encodes(codec, cap, rec) && torn <= codec.encode(rec) + [NEWLINE]
    ensures var line := codec.encode(rec);
            var r := ReadRecords(codec, cap, Image(codec, log) + torn);
            if torn == [] then r == Ok(log)
            else if torn == line || torn == line + [NEWLINE] then r == Ok(log + [rec])
            else r.Err?
  {
    hide LogLines, Joined, ParseLines;
    var line := codec.encode(rec);
    ImageThen(codec, cap, log, torn);
    if torn == [] {
      NothingToRead(cap, codec.utf8);
      ParseLined(codec, cap, log);
      assert Lined(codec, log) + [] == Lined(codec, log);
    } else if torn == line + [NEWLINE] {
      assert torn == line + [NEWLINE] + [];
      LogLinesCons(cap, codec.utf8, line, []);
      FirstReadable(cap, codec.utf8, line);
      NothingToRead(cap, codec.utf8);
      assert [line] + [] == [line];
      ParseOneMore(codec, cap, log, line);
    } else {
      ProperPrefix(line, torn);
      FragmentLine(codec, cap, torn);
      ParseOneMore(codec, cap, log, torn);
    }
  }

  lemma ProperPrefix(line: Bytes, torn: Bytes)
    requires torn <= line + [NEWLINE] && torn != line + [NEWLINE] && OneLine(line)
    ensures torn == line[..|torn|] && OneLine(torn) && (torn == line || |torn| < |line|)
  {
    assert torn == (line + [NEWLINE])[..|torn|];
    assert |torn| <= |line| ==> torn == line[..|torn|];
  }

  /**
   * Torn at any byte: recovery accepts a file whose last append stopped part way if and only if nothing
   * of the line landed, or all of it did, or all but the newline. Then the file holds the records of
   * before or of after; otherwise it is refused as long as it stays as it is.
   */
  lemma TornFileAcceptedIff(
    codec: Codec, cap: nat, cfg: Config, rh: RealmHash, log: seq<LogRecord>, rec: LogRecord, torn: Bytes)
    requires forall i | 0 <= i < |log| :: Encodes(codec, cap, log[i])
    requires Encodes(codec, cap, rec) && ChainOk(cfg, rh, log + [rec])
    requires torn <= codec.encode(rec) + [NEWLINE]
    ensures var line := codec.encode(rec);
            var file := Image(codec, log) + torn;
            && (FileAccepted(codec, cap, cfg, rh, file) <==> torn == [] || torn == line || torn == line + [NEWLINE])
            && (FileAccepted(codec, cap, cfg, rh, file) ==>
                  ReadRecords(codec, cap, file).value == if torn == [] then log else log + [rec])
  {
    hide ReadRecords, ChainOk, Image, Encodes;
    TornReads(codec, cap, log, rec, torn);
    ShorterChain(cfg, rh, log, rec);
  }

  lemma ShorterChain(cfg: Config, rh: RealmHash, log: seq<LogRecord>, rec: LogRecord)
    requires ChainOk(cfg, rh, log + [rec])
    ensures ChainOk(cfg, rh, log)
  {
    ChainPrefix(cfg, rh, log + [rec], |log|);
    assert (log + [rec])[..|log|] == log;
  }

  /**
   * After a lost newline the next append makes recovery refuse the file: its line holds two records,
   * which reads as none.
   */
  lemma LostNewlineThenAppendRefused(
    codec: Codec, cap: nat, cfg: Config, rh: RealmHash, log: seq<LogRecord>, rec: LogRecord, next: LogRecord)
    requires forall i | 0 <= i < |log| :: Encodes(codec, cap, log[i])
    requires Encodes(codec, cap, rec) && Encodes(codec, cap, next)
    requires var both := codec.encode(rec) + codec.encode(next); codec.parse(both) == None && !codec.blank(both)
    ensures !FileAccepted(codec, cap, cfg, rh, Image(codec, log) + codec.encode(rec) + (codec.encode(next) + [NEWLINE]))
  {
    hide LogLines, Joined, ParseLines, ChainOk;
    var both := codec.encode(rec) + codec.encode(next);
    Regroup(Image(codec, log), codec.encode(rec), codec.encode(next));
    ImageThen(codec, cap, log, both + [NEWLINE] + []);
    LogLinesCons(cap, codec.utf8, both, []);
    NothingToRead(cap, codec.utf8);
    StrippedBoth(both, codec.encode(next));
    if |both| + 1 <= cap && codec.utf8(both) {
      assert [both] + [] == [both];
      ParseOneMore(codec, cap, log, both);
    }
  }

  lemma StrippedBoth(both: Bytes, last: Bytes)
    requires last != [] && last[|last| - 1] != CARRIAGE_RETURN
    requires |last| <= |both| && both[|both| - |last|..] == last
    ensures Stripped(both + [NEWLINE]) == both
  {
    assert both[|both| - 1] == last[|last| - 1];
    StrippedText(both);
  }

  // ---- at a concrete file ----

  const FIRST := BuildRecord(Findings.SMALL, 0, Genesis, LogOp.Put(Findings.A, Hex(7), "m"), 0)
  const SECOND := BuildRecord(Findings.SMALL, 1, RecordSha(FIRST), LogOp.Put(Findings.A, Hex(7), "m"), 0)

  /** One letter for each of the two records. */
  const LETTERS := Codec(
    (rec: LogRecord) => if rec == FIRST then [65] else [66],
    (line: Bytes) => if line == [65] then Some(FIRST) else if line == [66] then Some(SECOND) else None,
    (line: Bytes) => true, (line: Bytes) => line == [])

  lemma LettersEncode()
    ensures Encodes(LETTERS, 10, FIRST) && Encodes(LETTERS, 10, SECOND)
    ensures ChainOk(Findings.SMALL, RealmSha(Findings.A), [FIRST] + [SECOND])
  {
    var log := [FIRST] + [SECOND];
    assert FIRST != SECOND;
    assert log[..0] == [] && log[..1] == [FIRST];
    assert RecordOk(Findings.SMALL, RealmSha(Findings.A), log, 0);
    assert RecordOk(Findings.SMALL, RealmSha(Findings.A), log, 1);
  }

  /**
   * The failing input: a record that lost its newline is accepted, and so is the file with both records;
   * but the second record appended to the first without the newline makes the file unacceptable.
   */
  lemma LostNewlineLosesTheFile()
    ensures var accepted := file => FileAccepted(LETTERS, 10, Findings.SMALL, RealmSha(Findings.A), file);
            && accepted([65]) && accepted([65, NEWLINE] + [66, NEWLINE]) && !accepted([65] + [66, NEWLINE])
  {
    hide FileAccepted, Encodes, ChainOk, Joined;
    var rh := RealmSha(Findings.A);
    LettersEncode();
    ShorterChain(Findings.SMALL, rh, [FIRST], SECOND);
    assert [] + [FIRST] == [FIRST];
    TornFileAcceptedIff(LETTERS, 10, Findings.SMALL, rh, [], FIRST, [65]);
    TornFileAcceptedIff(LETTERS, 10, Findings.SMALL, rh, [FIRST], SECOND, [66, NEWLINE]);
    LostNewlineThenAppendRefused(LETTERS, 10, Findings.SMALL, rh, [], FIRST, SECOND);
    LettersImage();
    assert [66] + [NEWLINE] == [66, NEWLINE] && [] + [65] == [65];
  }

  lemma LettersImage()
    ensures Image(LETTERS, []) == [] && Image(LETTERS, [FIRST]) == [65, NEWLINE]
  {
    assert Lined(LETTERS, [FIRST]) == [[65]];
    assert [[65]][1..] == [];
  }
}
