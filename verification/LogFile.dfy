/** The log file: appending, rolling to a new file by size and by day, and the bookkeeping in between. */
module LogFile {
  import opened Bytes
  import opened Chunks

  const ROLL_PER_SECONDS: nat := 60 * 60 * 24

  function DayStart(now: nat): nat {
    now / ROLL_PER_SECONDS * ROLL_PER_SECONDS
  }

  // Rolling as values

  /** A file is named by the second since which it is open. */
  datatype File = File(since: nat, contents: seq<Byte>)

  datatype Config = Config(rollSize: nat, flushInterval: nat, checkEveryN: nat)

  datatype State = State(
    file: File,
    counted: nat,
    count: nat,
    startOfPeriod: nat,
    lastRoll: nat,
    lastFlush: nat,
    // History: the files closed, everything that reached a file, the bytes of this file that were not counted, and the
    // last time seen
    closed: seq<File>,
    appended: seq<Byte>,
    uncounted: nat,
    clock: nat)

  /**
   * One append: how many bytes of the line reached the file, how many of those a failing write left uncounted, and the
   * times the clock shows when it is asked, at the check and when a file name is made.
   */
  datatype Event = Append(line: seq<Byte>, taken: nat, lost: nat, checkTime: nat, rollTime: nat)

  function Opened(now: nat): State {
    State(File(now, []), 0, 0, DayStart(now), now, now, [], [], 0, now)
  }

  /** The clock never steps back. */
  predicate Enabled(s: State, e: Event) {
    e.lost <= e.taken <= |e.line| && s.clock <= e.checkTime <= e.rollTime
  }

  /** A new file only if the second has changed since the last one. */
  function Rolled(s: State, now: nat): State {
    if now > s.lastRoll then
      s.(file := File(now, []), counted := 0, uncounted := 0, closed := s.closed + [s.file],
         startOfPeriod := DayStart(now), lastRoll := now, lastFlush := now)
    else s
  }

  function Grown(s: State, e: Event): State
    requires Enabled(s, e)
  {
    s.(file := s.file.(contents := s.file.contents + e.line[..e.taken]), counted := s.counted + e.taken - e.lost,
       appended := s.appended + e.line[..e.taken], uncounted := s.uncounted + e.lost, clock := e.rollTime)
  }

  /** Every so many appends the day and the time of the last flush are looked at. */
  function Checked(c: Config, s: State, e: Event): State {
    if DayStart(e.checkTime) != s.startOfPeriod then Rolled(s, e.rollTime)
    else if e.checkTime - s.lastFlush > c.flushInterval then s.(lastFlush := e.checkTime)
    else s
  }

  function Next(c: Config, s: State, e: Event): State
    requires Enabled(s, e)
  {
    var grown := Grown(s, e);
    if grown.counted > c.rollSize then Rolled(grown, e.rollTime)
    else if s.count + 1 < c.checkEveryN then grown.(count := s.count + 1)
    else Checked(c, grown.(count := 0), e)
  }

  predicate Legal(c: Config, s: State, es: seq<Event>)
    decreases |es|, 0
  {
    es == [] || (Legal(c, s, es[..|es| - 1]) && Enabled(Run(c, s, es[..|es| - 1]), es[|es| - 1]))
  }

  function Run(c: Config, s: State, es: seq<Event>): State
    requires Legal(c, s, es)
    decreases |es|, 1
  {
    if es == [] then s else Next(c, Run(c, s, es[..|es| - 1]), es[|es| - 1])
  }

  function Contents(files: seq<File>): seq<Byte> {
    if files == [] then [] else Contents(files[..|files| - 1]) + files[|files| - 1].contents
  }

  /** The files in the order of their creation hold what was appended; their names differ; the bookkeeping fits. */
  predicate Inv(c: Config, s: State) {
    && Contents(s.closed) + s.file.contents == s.appended
    && Ordered(s.closed, s.file.since)
    && |s.file.contents| == s.counted + s.uncounted
    && s.file.since == s.lastRoll <= s.clock && s.lastFlush <= s.clock
    && s.startOfPeriod == DayStart(s.lastRoll)
    && (c.checkEveryN > 0 ==> s.count < c.checkEveryN)
  }

  predicate Ordered(closed: seq<File>, since: nat) {
    && (forall i, j :: 0 <= i < j < |closed| ==> closed[i].since < closed[j].since)
    && (forall i :: 0 <= i < |closed| ==> closed[i].since < since)
  }

  /** What one append may do to the files. */
  predicate Rolls(c: Config, s: State, e: Event, after: State)
    requires Enabled(s, e)
  {
    var grown := Grown(s, e);
    // a file over the size, apart from bytes not counted, is left open only if its second is not over
    && (|after.file.contents| > c.rollSize + after.uncounted ==> e.rollTime <= after.lastRoll)
    // every roll moves on in time and has a reason
    && (after.closed != s.closed ==>
          && after.closed == s.closed + [grown.file]
          && after.file == File(e.rollTime, []) && after.lastRoll == e.rollTime > s.lastRoll
          && (grown.counted > c.rollSize || DayStart(e.checkTime) != s.startOfPeriod))
    // a check that finds another day always rolls
    && (s.count + 1 >= c.checkEveryN && grown.counted <= c.rollSize && DayStart(e.checkTime) != s.startOfPeriod ==>
          after.closed != s.closed)
  }

  lemma GrownKeeps(c: Config, s: State, e: Event)
    requires Inv(c, s) && Enabled(s, e)
    ensures Inv(c, Grown(s, e))
  {
    hide DayStart, Ordered;
    assert Contents(s.closed) + (s.file.contents + e.line[..e.taken]) == s.appended + e.line[..e.taken];
  }

  lemma RolledKeeps(c: Config, s: State, now: nat)
    requires Inv(c, s) && now == s.clock
    ensures Inv(c, Rolled(s, now))
  {
    hide DayStart;
    ContentsPush(s.closed, s.file);
    hide Contents;
    assert Contents(s.closed) + s.file.contents + [] == s.appended;
  }

  lemma ContentsPush(files: seq<File>, last: File)
    ensures Contents(files + [last]) == Contents(files) + last.contents
  {
    assert (files + [last])[..|files|] == files;
  }

  lemma CheckedKeeps(c: Config, s: State, e: Event)
    requires Inv(c, s) && e.checkTime <= e.rollTime == s.clock
    ensures Inv(c, Checked(c, s, e))
  {
    RolledKeeps(c, s, e.rollTime);
    hide DayStart, Rolled, Contents, Ordered;
  }

  lemma CountedKeeps(c: Config, s: State, count: nat)
    requires Inv(c, s) && (c.checkEveryN > 0 ==> count < c.checkEveryN)
    ensures Inv(c, s.(count := count))
  {
    hide DayStart, Contents, Ordered;
  }

  lemma AppendKeeps(c: Config, s: State, e: Event)
    requires Inv(c, s) && Enabled(s, e)
    ensures Inv(c, Next(c, s, e)) && Rolls(c, s, e, Next(c, s, e))
  {
    AppendRolls(c, s, e);
    hide Inv, Rolls, Grown, Rolled, Checked, Enabled;
    var grown := Grown(s, e);
    GrownKeeps(c, s, e);
    GrownClock(c, s, e);
    RolledKeeps(c, grown, e.rollTime);
    if s.count + 1 < c.checkEveryN {
      CountedKeeps(c, grown, s.count + 1);
    } else {
      CountedKeeps(c, grown, 0);
      CheckedKeeps(c, grown.(count := 0), e);
    }
  }

  lemma GrownClock(c: Config, s: State, e: Event)
    requires Enabled(s, e)
    ensures Grown(s, e).clock == e.rollTime >= e.checkTime
  {
  }

  lemma AppendRolls(c: Config, s: State, e: Event)
    requires Inv(c, s) && Enabled(s, e)
    ensures Rolls(c, s, e, Next(c, s, e))
  {
    hide DayStart, Contents, Ordered;
    assert DayStart(e.checkTime) != s.startOfPeriod ==> e.checkTime != s.lastRoll;
  }

  /** A day has 86400 seconds, and starts at a multiple of them. */
  lemma DayHasSeconds(now: nat)
    ensures DayStart(now) % 86400 == 0 && DayStart(now) <= now < DayStart(now) + 86400
  {
  }

  /** The open file is closed and a new one begins with the second, or nothing happens within the second. */
  predicate RolledTo(s: State, t: State, now: nat, contents: seq<Byte>) {
    if now > s.lastRoll then
      && t.closed == s.closed + [File(s.file.since, contents)] && t.file == File(now, []) && t.counted == 0
      && t.lastRoll == now && t.lastFlush == now && t.startOfPeriod == DayStart(now)
    else NotRolled(s, t, contents) && t.lastFlush == s.lastFlush
  }

  predicate NotRolled(s: State, t: State, contents: seq<Byte>) {
    && t.closed == s.closed && t.file == File(s.file.since, contents)
    && t.lastRoll == s.lastRoll && t.startOfPeriod == s.startOfPeriod
  }

  /**
   * An append that brings the bytes counted over the size rolls. Any other is counted, until every so many of them
   * there is a check: on another day it rolls, and on the same day it flushes if the last flush is long enough ago.
   */
  lemma AppendEffect(c: Config, s: State, e: Event)
    requires e.lost <= e.taken <= |e.line| && s.clock <= e.checkTime <= e.rollTime
    ensures var t, contents := Next(c, s, e), s.file.contents + e.line[..e.taken];
            var counted := s.counted + e.taken - e.lost;
            if counted > c.rollSize then t.count == s.count && RolledTo(s, t, e.rollTime, contents)
            else if s.count + 1 < c.checkEveryN then
              t.count == s.count + 1 && NotRolled(s, t, contents) && t.lastFlush == s.lastFlush && t.counted == counted
            else
              && t.count == 0
              && if DayStart(e.checkTime) != s.startOfPeriod then RolledTo(s, t, e.rollTime, contents)
                 else
                   && NotRolled(s, t, contents) && t.counted == counted
                   && t.lastFlush == if e.checkTime - s.lastFlush > c.flushInterval then e.checkTime else s.lastFlush
  {
    hide DayStart;
  }

  /** The appends counted since the last check. */
  function SinceCheck(c: Config, now: nat, es: seq<Event>): nat
    requires Legal(c, Opened(now), es)
  {
    if es == [] then 0
    else
      var before, e := es[..|es| - 1], es[|es| - 1];
      var n := SinceCheck(c, now, before);
      if Run(c, Opened(now), before).counted + e.taken - e.lost > c.rollSize then n
      else if n + 1 < c.checkEveryN then n + 1
      else 0
  }

  /** So a check comes with every so many appends that do not roll for their size. */
  lemma {:induction false} CountsSinceCheck(c: Config, now: nat, es: seq<Event>)
    requires Legal(c, Opened(now), es)
    ensures Run(c, Opened(now), es).count == SinceCheck(c, now, es)
  {
    if es != [] {
      CountsSinceCheck(c, now, es[..|es| - 1]);
      AppendEffect(c, Run(c, Opened(now), es[..|es| - 1]), es[|es| - 1]);
      hide Next, RolledTo, NotRolled;
    }
  }

  /** Over every sequence of appends, failing ones included, and every course of the clock. */
  lemma {:induction false} FilesHoldTheStream(c: Config, now: nat, es: seq<Event>)
    requires Legal(c, Opened(now), es)
    ensures Inv(c, Run(c, Opened(now), es))
  {
    if es != [] {
      FilesHoldTheStream(c, now, es[..|es| - 1]);
      hide Inv, Next, Enabled, Rolls;
      AppendKeeps(c, Run(c, Opened(now), es[..|es| - 1]), es[|es| - 1]);
    } else {
      assert Contents([]) + [] == [];
    }
  }

  /** The lines, with how much of each was taken. */
  function Offered(es: seq<Event>): seq<Chunk> {
    if es == [] then [] else Offered(es[..|es| - 1]) + [Chunk(es[|es| - 1].line, es[|es| - 1].taken)]
  }

  /** The files in the order of their creation hold the part taken of each line, one after the other. */
  lemma {:induction false} FilesHoldTakenParts(c: Config, now: nat, es: seq<Event>)
    requires Legal(c, Opened(now), es)
    ensures var s := Run(c, Opened(now), es);
            Fits(Offered(es)) && Contents(s.closed) + s.file.contents == TakenOf(Offered(es))
  {
    FilesHoldTheStream(c, now, es);
    AppendedIsTaken(c, now, es);
  }

  lemma {:induction false} AppendedIsTaken(c: Config, now: nat, es: seq<Event>)
    requires Legal(c, Opened(now), es)
    ensures Fits(Offered(es)) && Run(c, Opened(now), es).appended == TakenOf(Offered(es))
  {
    if es != [] {
      var before, e := es[..|es| - 1], es[|es| - 1];
      AppendedIsTaken(c, now, before);
      PushChunk(Offered(before), Chunk(e.line, e.taken));
      hide DayStart;
    }
  }

  predicate NoErrors(es: seq<Event>) {
    forall i :: 0 <= i < |es| ==> es[i].taken == |es[i].line| && es[i].lost == 0
  }

  /** Without a failing write the files hold every line, and each file counts all of its bytes. */
  lemma FilesHoldEveryLine(c: Config, now: nat, es: seq<Event>)
    requires Legal(c, Opened(now), es) && NoErrors(es)
    ensures var s := Run(c, Opened(now), es);
            && Contents(s.closed) + s.file.contents == WholeOf(Offered(es))
            && s.uncounted == 0 && s.counted == |s.file.contents|
  {
    FilesHoldTheStream(c, now, es);
    FilesHoldTakenParts(c, now, es);
    AllCounted(c, now, es);
    CompleteIsUnbroken(Offered(es));
  }

  lemma {:induction false} AllCounted(c: Config, now: nat, es: seq<Event>)
    requires Legal(c, Opened(now), es) && NoErrors(es)
    ensures Run(c, Opened(now), es).uncounted == 0
    ensures Complete(Offered(es))
  {
    if es != [] {
      AllCounted(c, now, es[..|es| - 1]);
      hide DayStart;
    }
  }

  /**
   * With a failing write they need not hold a prefix of the lines: a later line follows what was taken of an earlier
   * one.
   */
  lemma LinesCanMissTheirEnd(c: Config)
    ensures var es := [Append([1, 2], 1, 0, 1, 1), Append([3], 1, 0, 1, 1)];
            && Legal(c, Opened(1), es) && Offered(es) == [Chunk([1, 2], 1), Chunk([3], 1)]
            && var s := Run(c, Opened(1), es);
               Contents(s.closed) + s.file.contents == [1, 3] && !([1, 3] <= WholeOf(Offered(es)))
  {
    var one, two := [Append([1, 2], 1, 0, 1, 1)], [Append([1, 2], 1, 0, 1, 1), Append([3], 1, 0, 1, 1)];
    assert one[..0] == [] && two[..1] == one;
    ClockOfRun(c, Opened(1), []);
    ClockOfRun(c, Opened(1), one);
    FilesHoldTakenParts(c, 1, two);
    hide Next, Run, Inv, TakenOf, WholeOf;
    assert Offered(one) == [] + [Chunk([1, 2], 1)] && Offered(two) == Offered(one) + [Chunk([3], 1)];
    GapInTheMiddle();
  }

  lemma GapInTheMiddle()
    ensures var cs := [Chunk([1, 2], 1), Chunk([3], 1)];
            Fits(cs) && TakenOf(cs) == [1, 3] && !([1, 3] <= WholeOf(cs))
  {
    var cs := [Chunk([1, 2], 1), Chunk([3], 1)];
    assert cs[1..] == [Chunk([3], 1)] && cs[1..][1..] == [];
    assert TakenOf(cs) == [1] + ([3] + []) && WholeOf(cs) == [1, 2] + ([3] + []);
    assert WholeOf(cs)[1] == 2;
  }

  lemma ClockOfRun(c: Config, s: State, es: seq<Event>)
    requires Legal(c, s, es)
    ensures Run(c, s, es).clock == if es == [] then s.clock else es[|es| - 1].rollTime
  {
    hide DayStart;
  }

  // The objects

  /** The answer of the library to one write: bytes taken, and whether it reports an error after a short write. */
  datatype WriteResult = WriteResult(n: nat, err: bool)

  class AppendFile {
    const since: nat
    /** What reached the file, and what the object counted. */
    var contents: seq<Byte>
    var writtenBytes: nat

    constructor (since: nat)
      ensures this.since == since && contents == [] && writtenBytes == 0
    {
      this.since, contents, writtenBytes := since, [], 0;
    }

    /**
     * Writes until everything is taken or an error is reported; after the results given, the library takes everything.
     * `taken` bytes reach the file; of those the `lost` bytes of the write that reported the error are not counted.
     */
    method Append(line: seq<Byte>, results: seq<WriteResult>) returns (taken: nat, lost: nat, failed: bool)
      modifies this
      ensures lost <= taken <= |line| && contents == old(contents) + line[..taken]
      ensures writtenBytes == old(writtenBytes) + taken - lost
      ensures !failed ==> taken == |line| && lost == 0
      ensures failed ==> taken < |line| && exists i :: 0 <= i < |results| && results[i].err && lost == results[i].n
      ensures (forall i :: 0 <= i < |results| ==> !results[i].err) ==> !failed
    {
      var written, i := 0, 0;
      taken, lost, failed := 0, 0, false;
      while written != |line|
        invariant written == taken <= |line| && i <= |results| && !failed
        invariant contents == old(contents) + line[..taken] && writtenBytes == old(writtenBytes)
        decreases |results| - i, |line| - written
      {
        var remain := |line| - written;
        var result := if i < |results| then results[i] else WriteResult(remain, false);
        var n := Min(result.n, remain);
        contents := contents + line[written..written + n];
        taken := taken + n;
        assert line[..taken] == line[..written] + line[written..taken];
        if n != remain {
          if result.err {
            failed, lost := true, n;
            break;
          }
        }
        written := written + n;
        i := if i < |results| then i + 1 else i;
      }
      writtenBytes := writtenBytes + written;
    }
  }

  class LogFile {
    const config: Config
    var file: AppendFile
    var count: nat
    var startOfPeriod: nat
    var lastRoll: nat
    var lastFlush: nat
    ghost var closed: seq<File>
    ghost var appended: seq<Byte>
    ghost var offered: seq<Chunk>
    ghost var uncounted: nat
    ghost var clock: nat

    ghost function View(): State
      reads this, file
    {
      State(File(file.since, file.contents), file.writtenBytes, count, startOfPeriod, lastRoll, lastFlush,
            closed, appended, uncounted, clock)
    }

    /** The bookkeeping fits, and what was appended is the part taken of each line. */
    ghost predicate Valid()
      reads this, file
    {
      Inv(config, View()) && Fits(offered) && appended == TakenOf(offered)
    }

    constructor (config: Config, now: nat)
      requires now > 0
      ensures Valid() && View() == Opened(now) && this.config == config && fresh(file)
    {
      this.config := config;
      file := new AppendFile(now);
      count, startOfPeriod, lastRoll, lastFlush := 0, DayStart(now), now, now;
      closed, appended, offered, uncounted, clock := [], [], [], 0, now;
      new;
      assert Contents([]) + [] == [];
    }

    method RollFile(now: nat) returns (rolled: bool)
      modifies this
      ensures View() == Rolled(old(View()), now) && rolled == (now > old(lastRoll)) && offered == old(offered)
      ensures if rolled then fresh(file) else file == old(file)
    {
      var start := DayStart(now);
      rolled := false;
      if now > lastRoll {
        closed := closed + [File(file.since, file.contents)];
        lastRoll := now;
        lastFlush := now;
        startOfPeriod := start;
        file := new AppendFile(now);
        uncounted := 0;
        rolled := true;
      }
    }

    /** Appends a line, in any number of short writes, until it is taken or a write fails. */
    method AppendUnlocked(line: seq<Byte>, results: seq<WriteResult>, checkTime: nat, rollTime: nat)
      returns (taken: nat, lost: nat)
      requires Valid() && clock <= checkTime <= rollTime
      modifies this, file
      ensures lost <= taken <= |line|
      ensures Valid() && View() == Next(config, old(View()), Append(line, taken, lost, checkTime, rollTime))
      ensures (forall i :: 0 <= i < |results| ==> !results[i].err) ==> taken == |line| && lost == 0
      ensures clock == rollTime && offered == old(offered) + [Chunk(line, taken)]
      ensures file == old(file) || fresh(file)
    {
      hide Inv, Rolls, DayStart, TakenOf, Fits;
      ghost var before := View();
      taken, lost := Grow(line, results, rollTime);
      PushChunk(offered, Chunk(line, taken));
      offered := offered + [Chunk(line, taken)];
      AppendKeeps(config, before, Append(line, taken, lost, checkTime, rollTime));
      if file.writtenBytes > config.rollSize {
        var _ := RollFile(rollTime);
      } else {
        count := count + 1;
        if count >= config.checkEveryN {
          count := 0;
          Check(checkTime, rollTime);
        }
      }
    }

    method Grow(line: seq<Byte>, results: seq<WriteResult>, ghost rollTime: nat) returns (taken: nat, lost: nat)
      requires clock <= rollTime
      modifies this`appended, this`uncounted, this`clock, file
      ensures lost <= taken <= |line| && View() == Grown(old(View()), Append(line, taken, lost, rollTime, rollTime))
      ensures (forall i :: 0 <= i < |results| ==> !results[i].err) ==> taken == |line| && lost == 0
    {
      var failed;
      taken, lost, failed := file.Append(line, results);
      appended, uncounted, clock := appended + line[..taken], uncounted + lost, rollTime;
    }

    /** On another day a new file, and otherwise a flush if it is time for one. */
    method Check(checkTime: nat, rollTime: nat)
      modifies this
      ensures View() == Checked(config, old(View()), Append([], 0, 0, checkTime, rollTime)) && offered == old(offered)
      ensures file == old(file) || fresh(file)
    {
      var thisPeriod := DayStart(checkTime);
      if thisPeriod != startOfPeriod {
        var _ := RollFile(rollTime);
      } else if checkTime - lastFlush > config.flushInterval {
        lastFlush := checkTime;
      }
    }
  }
}
