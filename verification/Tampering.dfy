/**
 * What recovery says to a directory somebody else has written to: which changes of an accepted file it
 * reports, and as what.
 */
module Tampering {
  import opened Basics
  import opened Records
  import opened Catalog
  import opened Chain
  import opened Store
  import opened Invariant
  import opened Recovery
  import opened StoreLoops

  // ---- one file ----

  /** The file is accepted after what `start` holds. */
  ghost predicate Good(cfg: Config, rh: RealmHash, log: seq<LogRecord>, start: Content) {
    Disjoint(start) && ChainOk(cfg, rh, log) && WithinCap(|Retained(ReplayFrom(start, log))|, cfg.maxEntries)
  }

  /** Recovery refuses the file after what `start` holds, with this error and no other. */
  ghost predicate Refused(cfg: Config, rh: RealmHash, log: seq<LogRecord>, start: Content, e: Error) {
    forall f :: FileFault(cfg, rh, log, start, f) <==> f == e
  }

  /** A changed file is refused for its first changed record, if that fails a check. */
  lemma RefusedAt(
    cfg: Config, rh: RealmHash, log: seq<LogRecord>, changed: seq<LogRecord>, start: Content, i: nat, e: Error)
    requires Good(cfg, rh, log, start) && i <= |log| && i < |changed| && changed[..i] == log[..i]
    requires RecordError(cfg, rh, changed[i], TipOf(log[..i]), i) == Some(e)
    ensures Refused(cfg, rh, changed, start, e)
  {
    hide RecordError, Retained, ReplayFrom;
    RetainedPrefix(start, log, i);
    forall j | 0 <= j < i
      ensures RecordOk(cfg, rh, changed, j)
    {
      assert RecordOk(cfg, rh, log, j);
      assert changed[j] == changed[..i][j] == log[j];
      assert changed[..j] == changed[..i][..j] == log[..j];
    }
    assert FaultAt(cfg, rh, changed, start, i, e);
    forall f | FileFault(cfg, rh, changed, start, f)
      ensures f == e
    {
      FileFaultUnique(cfg, rh, changed, start, e, f);
    }
  }

  /** The record reads as one: its line fits and its fields parse. */
  predicate Legible(cfg: Config, rec: LogRecord) {
    LineBytes(cfg, rec) <= 4_194_304 && Parses(rec.op) && rec.firstSeen <= U64_MAX
  }

  /** A record edited in any field, with its signature left alone or copied from any other, does not verify. */
  lemma EditIsBadSignature(
    cfg: Config, rh: RealmHash, log: seq<LogRecord>, start: Content, i: nat, j: nat, rec: LogRecord)
    requires Good(cfg, rh, log, start) && i < |log| && j < |log|
    requires rec.signature == log[j].signature && rec != log[j]
    requires Legible(cfg, rec) && rec.author == cfg.pubkey
    ensures Refused(cfg, rh, log[i := rec], start, BadSignature)
  {
    assert RecordOk(cfg, rh, log, j);
    RefusedAt(cfg, rh, log, log[i := rec], start, i, BadSignature);
  }

  /** A record by another key, wherever it is put, is foreign, however well it is signed. */
  lemma ForeignIsRefused(
    cfg: Config, rh: RealmHash, log: seq<LogRecord>, start: Content, i: nat, rest: seq<LogRecord>)
    requires Good(cfg, rh, log, start) && i <= |log| && rest != []
    requires Legible(cfg, rest[0]) && rest[0].author != cfg.pubkey
    ensures Refused(cfg, rh, log[..i] + rest, start, ForeignAuthor)
  {
    assert (log[..i] + rest)[..i] == log[..i];
    RefusedAt(cfg, rh, log, log[..i] + rest, start, i, ForeignAuthor);
  }

  /** Records dropped, repeated or moved about break the chain at the first that is out of place. */
  lemma MisplacedBreaksChain(
    cfg: Config, rh: RealmHash, log: seq<LogRecord>, start: Content, i: nat, j: nat, rest: seq<LogRecord>)
    requires Good(cfg, rh, log, start) && i <= |log| && j < |log| && i != j
    requires rest != [] && rest[0] == log[j]
    ensures Refused(cfg, rh, log[..i] + rest, start, ChainBroken)
  {
    assert RecordOk(cfg, rh, log, j);
    assert (log[..i] + rest)[..i] == log[..i];
    RefusedAt(cfg, rh, log, log[..i] + rest, start, i, ChainBroken);
  }

  /** A whole file under the name of another Realm is corrupt. */
  lemma RenamedIsCorrupt(cfg: Config, rh: RealmHash, other: RealmHash, log: seq<LogRecord>, start: Content)
    requires Good(cfg, rh, log, start) && log != [] && other != rh
    requires WithinCap(|Retained(start)|, cfg.maxEntries)
    ensures Refused(cfg, other, log, start, Corrupt)
  {
    hide Retained;
    assert RecordOk(cfg, rh, log, 0);
    assert Good(cfg, other, [], start);
    RefusedAt(cfg, other, [], log, start, 0, Corrupt);
  }

  /** Records this store's key did sign, but with a malformed hash or too long for a line. */
  lemma SignedButUnfit(cfg: Config, rh: RealmHash, log: seq<LogRecord>, start: Content, op: LogOp, fs: nat)
    requires Good(cfg, rh, log, start) && fs <= U64_MAX
    ensures var rec := BuildRecord(cfg, |log|, TipOf(log), op, fs);
            && (Legible(cfg, rec) && op.hash.Malformed? ==> Refused(cfg, rh, log + [rec], start, Corrupt))
            && (LineBytes(cfg, rec) > 4_194_304 ==> Refused(cfg, rh, log + [rec], start, Limit))
  {
    var rec := BuildRecord(cfg, |log|, TipOf(log), op, fs);
    var changed := log + [rec];
    assert changed[..|log|] == log && log[..|log|] == log;
    if Legible(cfg, rec) && op.hash.Malformed? {
      RefusedAt(cfg, rh, log, changed, start, |log|, Corrupt);
    }
    if LineBytes(cfg, rec) > 4_194_304 {
      RefusedAt(cfg, rh, log, changed, start, |log|, Limit);
    }
  }

  /** What is not noticed: records cut off at the end of a file. What is left is accepted. */
  lemma CutTailIsAccepted(cfg: Config, rh: RealmHash, log: seq<LogRecord>, start: Content, n: nat)
    requires Good(cfg, rh, log, start) && n <= |log|
    ensures Good(cfg, rh, log[..n], start)
  {
    hide Retained, ReplayFrom;
    ChainPrefix(cfg, rh, log, n);
    RetainedPrefix(start, log, n);
  }

  // ---- the whole directory ----

  lemma FaultRefuses(cfg: Config, rh: RealmHash, log: seq<LogRecord>, start: Content, e: Error)
    requires Disjoint(start) && FileFault(cfg, rh, log, start, e)
    ensures !Good(cfg, rh, log, start)
  {
    hide RecordError, Retained, ReplayFrom;
    var i :| 0 <= i < |log| && FaultAt(cfg, rh, log, start, i, e);
    RecordVerdict(cfg, rh, log, i);
    RetainedPrefix(start, log, i + 1);
  }

  /** After some of the other files of an acceptable directory, each file is good. */
  lemma GoodAfterOthers(cfg: Config, logs: Logs, done: Logs, rh: RealmHash)
    requires LogsOk(cfg, logs) && WithinCap(|Retained(Meaning(logs))|, cfg.maxEntries)
    requires rh in logs && rh !in done && done.Keys <= logs.Keys && forall r | r in done :: done[r] == logs[r]
    ensures Good(cfg, rh, logs[rh], Meaning(done))
    ensures LogsOk(cfg, done) && WithinCap(|Retained(Meaning(done))|, cfg.maxEntries)
  {
    hide Meaning, Retained, ChainOk;
    MeaningDisjoint(done);
    if !WithinCap(|Retained(ReplayFrom(Meaning(done), logs[rh]))|, cfg.maxEntries) {
      RefusedFile(cfg, logs, done, rh);
    }
    RetainedPrefix(Meaning(done), logs[rh], 0);
    assert logs[rh][..0] == [];
  }

  lemma OnlyFirstFault(
    cfg: Config, logs: Logs, torn: set<RealmHash>, order: seq<RealmHash>, i: nat, e: Error, j: nat, f: Error)
    requires Enumerates(order, logs.Keys) && i < j < |order| && order[i] in logs && order[j] in logs
    requires FirstFault(cfg, logs, torn, order, j, f)
    ensures !FirstFault(cfg, logs, torn, order, i, e)
  {
    hide Meaning, Retained, FileFault, ReplayFrom, ChainOk, FirstFiles;
    var (rh, done, later) := (order[i], FirstFiles(logs, order, i), FirstFiles(logs, order, j));
    FilesBetween(logs, order, i, j);
    GoodAfterOthers(cfg, later, done, rh);
    if FirstFault(cfg, logs, torn, order, i, e) && FileFault(cfg, rh, logs[rh], Meaning(done), e) {
      FaultRefuses(cfg, rh, logs[rh], Meaning(done), e);
    }
  }

  lemma FilesBetween(logs: Logs, order: seq<RealmHash>, i: nat, j: nat)
    requires Enumerates(order, logs.Keys) && i < j < |order|
    ensures var (done, later) := (FirstFiles(logs, order, i), FirstFiles(logs, order, j));
            && order[i] in later && later[order[i]] == logs[order[i]]
            && order[i] !in done && done.Keys <= later.Keys && forall r | r in done :: done[r] == later[r]
  {
    assert order[i] == order[..j][i];
    assert order[..i] == order[..j][..i];
  }

  /** A refused directory has one first bad file and one reason. */
  lemma RefusalIsDetermined(
    cfg: Config, logs: Logs, torn: set<RealmHash>, order: seq<RealmHash>, e: Error, f: Error)
    requires Enumerates(order, logs.Keys)
    requires DirectoryFault(cfg, logs, torn, order, e) && DirectoryFault(cfg, logs, torn, order, f)
    ensures e == f
  {
    hide Meaning, Retained, FileFault, ReplayFrom, ChainOk, FirstFiles;
    var i :| 0 <= i < |order| && order[i] in logs && FirstFault(cfg, logs, torn, order, i, e);
    var j :| 0 <= j < |order| && order[j] in logs && FirstFault(cfg, logs, torn, order, j, f);
    if i < j {
      OnlyFirstFault(cfg, logs, torn, order, i, e, j, f);
    } else if j < i {
      OnlyFirstFault(cfg, logs, torn, order, j, f, i, e);
    } else {
      SameFileSameFault(cfg, logs, torn, order, i, e, f);
    }
  }

  lemma SameFileSameFault(
    cfg: Config, logs: Logs, torn: set<RealmHash>, order: seq<RealmHash>, i: nat, e: Error, f: Error)
    requires i < |order| && order[i] in logs
    requires FirstFault(cfg, logs, torn, order, i, e) && FirstFault(cfg, logs, torn, order, i, f)
    ensures e == f
  {
    hide Meaning, Retained, FileFault, ReplayFrom, ChainOk, FirstFiles;
    var (rh, start) := (order[i], Meaning(FirstFiles(logs, order, i)));
    MeaningDisjoint(FirstFiles(logs, order, i));
    if FileFault(cfg, rh, logs[rh], start, e) && FileFault(cfg, rh, logs[rh], start, f) {
      FileFaultUnique(cfg, rh, logs[rh], start, e, f);
    } else if FileFault(cfg, rh, logs[rh], start, e) {
      FaultRefuses(cfg, rh, logs[rh], start, e);
    } else if FileFault(cfg, rh, logs[rh], start, f) {
      FaultRefuses(cfg, rh, logs[rh], start, f);
    }
  }

  /** The directory is refused with this error and no other; no file of it is torn. */
  ghost predicate DirectoryRefused(cfg: Config, logs: Logs, order: seq<RealmHash>, e: Error) {
    forall f :: DirectoryFault(cfg, logs, {}, order, f) <==> f == e
  }

  /**
   * One file of an acceptable directory is replaced by one that is refused as `e` wherever it comes. Then,
   * in whatever order the files are taken, the directory is refused, as `e` and nothing else.
   */
  lemma OneBadFile(cfg: Config, logs: Logs, rh: RealmHash, bad: seq<LogRecord>, order: seq<RealmHash>, e: Error)
    requires LogsOk(cfg, logs) && WithinCap(|Retained(Meaning(logs))|, cfg.maxEntries) && rh in logs
    requires Enumerates(order, logs.Keys)
    requires forall start | Good(cfg, rh, logs[rh], start) :: Refused(cfg, rh, bad, start, e)
    ensures DirectoryRefused(cfg, logs[rh := bad], order, e)
  {
    hide Meaning, Retained, FileFault, ReplayFrom, ChainOk, FirstFiles, Good;
    var changed := logs[rh := bad];
    var i :| 0 <= i < |order| && order[i] == rh;
    var done := FirstFiles(changed, order, i);
    OneMoreFile(logs, order, i);
    SomeFiles(logs, order, i);
    SameFirstFiles(logs, changed, order, i);
    GoodAfterOthers(cfg, logs, done, rh);
    assert Refused(cfg, rh, bad, Meaning(done), e);
    assert changed.Keys == logs.Keys;
    assert FirstFault(cfg, changed, {}, order, i, e);
    forall f | DirectoryFault(cfg, changed, {}, order, f)
      ensures f == e
    {
      RefusalIsDetermined(cfg, changed, {}, order, e, f);
    }
  }

  lemma SameFirstFiles(logs: Logs, changed: Logs, order: seq<RealmHash>, i: nat)
    requires i < |order| && Enumerates(order, logs.Keys)
    requires order[i] in changed && changed == logs[order[i] := changed[order[i]]]
    ensures FirstFiles(changed, order, i) == FirstFiles(logs, order, i)
  {
    forall r | r in order[..i]
      ensures r != order[i]
    {
      var j :| 0 <= j < i && order[j] == r;
    }
  }

  /**
   * The manifest of a record, or anything else in it, was edited in place, and its signature left alone:
   * recovery of the directory answers that the signature is bad, in whatever order it takes the files.
   */
  lemma EditedDirectory(
    cfg: Config, logs: Logs, rh: RealmHash, i: nat, rec: LogRecord, order: seq<RealmHash>)
    requires LogsOk(cfg, logs) && WithinCap(|Retained(Meaning(logs))|, cfg.maxEntries)
    requires rh in logs && i < |logs[rh]| && Enumerates(order, logs.Keys)
    requires rec.signature == logs[rh][i].signature && rec != logs[rh][i]
    requires Legible(cfg, rec) && rec.author == cfg.pubkey
    ensures DirectoryRefused(cfg, logs[rh := logs[rh][i := rec]], order, BadSignature)
  {
    hide Meaning, Retained, Good, Refused, DirectoryRefused, LogsOk, Legible;
    forall start | Good(cfg, rh, logs[rh], start)
      ensures Refused(cfg, rh, logs[rh][i := rec], start, BadSignature)
    {
      EditIsBadSignature(cfg, rh, logs[rh], start, i, i, rec);
    }
    OneBadFile(cfg, logs, rh, logs[rh][i := rec], order, BadSignature);
  }
}
