/**
 * The plugin's debug log: a bounded first-in-first-out buffer of records
 * that drops its oldest record when a new one arrives at capacity, typed
 * appends, filtered reads, and a record formatter that caches its text.
 */
module Logger {
  import opened Wrappers

  datatype LogType = Debug | Cron | Transaction

  /** `Type.values()`, in declaration order. */
  const AllTypes: seq<LogType> := [Debug, Cron, Transaction]

  /** `bufferSize`: 1500 records per log type. */
  const BufferSize: nat := 1500 * |AllTypes|

  lemma AllTypesListsEachTypeOnce()
    ensures forall t: LogType :: t in AllTypes
    ensures forall i, j :: 0 <= i < j < |AllTypes| ==> AllTypes[i] != AllTypes[j]
    ensures BufferSize == 4500
  {
    forall t: LogType ensures t in AllTypes {
      match t
      case Debug => assert AllTypes[0] == t;
      case Cron => assert AllTypes[1] == t;
      case Transaction => assert AllTypes[2] == t;
    }
  }

  /** The standard levels of `java.util.logging.Level`. */
  datatype Level = Severe | Warning | Info | Config | Fine | Finer | Finest | All | Off {
    function Name(): (s: string)
      ensures s != [] && forall i :: 0 <= i < |s| ==> 'A' <= s[i] <= 'Z'
    {
      match this
      case Severe => "SEVERE"
      case Warning => "WARNING"
      case Info => "INFO"
      case Config => "CONFIG"
      case Fine => "FINE"
      case Finer => "FINER"
      case Finest => "FINEST"
      case All => "ALL"
      case Off => "OFF"
    }
  }

  lemma LevelNameInjective(a: Level, b: Level)
    requires a.Name() == b.Name()
    ensures a == b
  {
  }

  type Int32 = x: int | -0x8000_0000 <= x < 0x8000_0000

  /** Where a record was logged from. */
  datatype Caller = Caller(threadName: string, className: string, methodName: string, lineNumber: Int32)

  // ---------------------------------------------------------------------------
  // Decimal text of an int, as `StringBuilder.append(int)` writes it

  predicate IsDigit(c: char) {
    '0' <= c <= '9'
  }

  predicate AllDigits(s: string) {
    forall i :: 0 <= i < |s| ==> IsDigit(s[i])
  }

  function DigitChar(d: nat): (c: char)
    requires d < 10
    ensures IsDigit(c)
  {
    ('0' as int + d) as char
  }

  function DigitValue(c: char): (d: nat)
    requires IsDigit(c)
    ensures d < 10
  {
    assert '0' as int <= c as int <= '9' as int;
    c as int - '0' as int
  }

  function NatToString(n: nat): (s: string)
    ensures s != [] && AllDigits(s)
    ensures |s| > 1 ==> s[0] != '0'
    decreases n
  {
    if n < 10 then [DigitChar(n)] else NatToString(n / 10) + [DigitChar(n % 10)]
  }

  function IntToString(i: int): (s: string)
    ensures s != [] && (s[0] == '-' <==> i < 0)
    ensures if i < 0 then AllDigits(s[1..]) else AllDigits(s)
  {
    if i < 0 then "-" + NatToString(-i) else NatToString(i)
  }

  function ParseNat(s: string): nat
    requires AllDigits(s)
  {
    if s == [] then 0 else ParseNat(s[..|s| - 1]) * 10 + DigitValue(s[|s| - 1])
  }

  function ParseInt(s: string): int
    requires s != [] && (if s[0] == '-' then AllDigits(s[1..]) else AllDigits(s))
  {
    if s[0] == '-' then 0 - ParseNat(s[1..]) else ParseNat(s)
  }

  lemma {:induction false} NatToStringRoundTrip(n: nat)
    ensures ParseNat(NatToString(n)) == n
    decreases n
  {
    if n >= 10 {
      var s := NatToString(n);
      assert s[..|s| - 1] == NatToString(n / 10);
      NatToStringRoundTrip(n / 10);
    }
  }

  /** The line number's text reads back as the same number. */
  lemma IntToStringRoundTrip(i: int)
    ensures var s := IntToString(i);
      s != [] && (if s[0] == '-' then AllDigits(s[1..]) else AllDigits(s)) && ParseInt(s) == i
  {
    var s := IntToString(i);
    if i < 0 {
      assert s[1..] == NatToString(-i);
      NatToStringRoundTrip(-i);
    } else {
      NatToStringRoundTrip(i);
    }
  }

  // ---------------------------------------------------------------------------
  // Record.toString

  /**
   * The text of a record: `[thread/LEVEL] (class#method:line) message` when a
   * caller was recorded, `[LEVEL] message` when not.
   */
  function Format(level: Level, caller: Option<Caller>, message: string): (s: string)
    ensures |message| < |s| && s[0] == '['
    ensures s[|s| - |message|..] == message
  {
    match caller
    case Some(c) =>
      "[" + c.threadName + "/" + level.Name() + "]" + " "
      + "(" + c.className + "#" + c.methodName + ":" + IntToString(c.lineNumber) + ")" + " "
      + message
    case None => "[" + level.Name() + "]" + " " + message
  }

  /**
   * In the caller-less text the first ']' is the one right after the level
   * name: the name sits between it and the opening '[', and the message
   * follows "] ".
   */
  lemma BracketAfterName(level: Level, message: string)
    ensures var s := Format(level, None, message);
      var n := level.Name();
      |s| == 3 + |n| + |message| && s[1 + |n|] == ']' && (forall i :: 1 <= i < 1 + |n| ==> s[i] != ']') &&
      s[1..1 + |n|] == n && s[3 + |n|..] == message
  {
    var n := level.Name();
    var s := Format(level, None, message);
    assert s == "[" + n + "] " + message;
    forall i | 1 <= i < 1 + |n| ensures s[i] != ']' {
      assert s[i] == n[i - 1];
    }
    assert s[1..1 + |n|] == n;
    assert s[3 + |n|..] == message;
  }

  /** Without a caller the text determines the level and the message. */
  lemma FormatWithoutCallerInjective(l1: Level, m1: string, l2: Level, m2: string)
    requires Format(l1, None, m1) == Format(l2, None, m2)
    ensures l1 == l2 && m1 == m2
  {
    var s := Format(l1, None, m1);
    var n1, n2 := l1.Name(), l2.Name();
    BracketAfterName(l1, m1);
    BracketAfterName(l2, m2);
    // The first ']' of the text closes the level name, which has none.
    assert |n1| == |n2|;
    LevelNameInjective(l1, l2);
  }

  /** A log record. Everything but the cached text is fixed at construction. */
  class Record {
    const level: Level
    const logType: LogType
    const message: string
    const caller: Option<Caller>
    var toStringCache: Option<string>

    /** A cached text is always the record's formatted text. */
    ghost predicate Valid()
      reads this
    {
      toStringCache.Some? ==> toStringCache.value == Format(level, caller, message)
    }

    constructor (level: Level, logType: LogType, message: string, caller: Option<Caller>)
      ensures Valid()
      ensures this.level == level && this.logType == logType
      ensures this.message == message && this.caller == caller
      ensures toStringCache == None
    {
      this.level := level;
      this.logType := logType;
      this.message := message;
      this.caller := caller;
      toStringCache := None;
    }

    /** The formatted text; the first call stores it and later calls return the stored one. */
    method ToString() returns (s: string)
      requires Valid()
      modifies this`toStringCache
      ensures Valid()
      ensures s == Format(level, caller, message)
      ensures toStringCache == Some(s)
      ensures old(toStringCache).Some? ==> s == old(toStringCache).value
    {
      if toStringCache.Some? {
        return toStringCache.value;
      }
      var sb: string;
      if caller.Some? {
        var c := caller.value;
        sb := "[" + c.threadName + "/" + level.Name() + "]" + " "
              + "(" + c.className + "#" + c.methodName + ":" + IntToString(c.lineNumber) + ")" + " ";
      } else {
        sb := "[" + level.Name() + "]" + " ";
      }
      sb := sb + message;
      toStringCache := Some(sb);
      s := sb;
    }
  }

  // ---------------------------------------------------------------------------
  // The evicting queue

  /**
   * `offer` on a queue bounded by `maxSize`: at capacity the head is removed
   * before the new element is added at the tail; a queue of size 0 stays empty.
   */
  function Offer<T>(queue: seq<T>, x: T, maxSize: nat): (r: seq<T>)
    requires |queue| <= maxSize
    ensures |r| <= maxSize
    ensures maxSize > 0 ==> r != [] && r[|r| - 1] == x
  {
    if maxSize == 0 then queue
    else if |queue| == maxSize then queue[1..] + [x]
    else queue + [x]
  }

  /** The last `n` elements of `s`, or all of `s` when it has fewer. */
  function Newest<T>(s: seq<T>, n: nat): seq<T> {
    if |s| <= n then s else s[|s| - n..]
  }

  /** Offering keeps exactly the newest `maxSize` elements, in order. */
  lemma OfferKeepsNewest<T>(queue: seq<T>, x: T, maxSize: nat)
    requires |queue| <= maxSize
    ensures Offer(queue, x, maxSize) == Newest(queue + [x], maxSize)
  {
    if maxSize > 0 && |queue| == maxSize {
      assert (queue + [x])[|queue + [x]| - maxSize..] == queue[1..] + [x];
    }
  }

  lemma NewestOfNewest<T>(s: seq<T>, t: seq<T>, n: nat)
    ensures Newest(Newest(s, n) + t, n) == Newest(s + t, n)
  {
    if |s| > n {
      var k := |s| - n;
      assert s + t == s[..k] + (s[k..] + t);
      assert (s + t)[k..] == s[k..] + t;
    }
  }

  function OfferAll<T>(queue: seq<T>, xs: seq<T>, maxSize: nat): (r: seq<T>)
    requires |queue| <= maxSize
    decreases |xs|
  {
    if xs == [] then queue else OfferAll(Offer(queue, xs[0], maxSize), xs[1..], maxSize)
  }

  /** After any series of offers the queue holds the newest `maxSize` of everything offered. */
  lemma {:induction false} OfferAllKeepsNewest<T>(queue: seq<T>, xs: seq<T>, maxSize: nat)
    requires |queue| <= maxSize
    ensures OfferAll(queue, xs, maxSize) == Newest(queue + xs, maxSize)
    decreases |xs|
  {
    if xs == [] {
      assert queue + xs == queue;
    } else {
      var q1 := Offer(queue, xs[0], maxSize);
      calc {
        OfferAll(queue, xs, maxSize);
        OfferAll(q1, xs[1..], maxSize);
        { OfferAllKeepsNewest(q1, xs[1..], maxSize); }
        Newest(q1 + xs[1..], maxSize);
        { OfferKeepsNewest(queue, xs[0], maxSize); }
        Newest(Newest(queue + [xs[0]], maxSize) + xs[1..], maxSize);
        { NewestOfNewest(queue + [xs[0]], xs[1..], maxSize); }
        Newest(queue + [xs[0]] + xs[1..], maxSize);
        { assert queue + [xs[0]] + xs[1..] == queue + xs; }
        Newest(queue + xs, maxSize);
      }
    }
  }

  // ---------------------------------------------------------------------------
  // Filtered reads

  /** The elements of `s` that satisfy `keep`, in their order in `s`. */
  function Filter<T>(s: seq<T>, keep: T -> bool): (r: seq<T>)
    ensures |r| <= |s|
    ensures forall x :: x in r ==> x in s && keep(x)
    ensures forall x :: x in s && keep(x) ==> x in r
    decreases |s|
  {
    if s == [] then []
    else (if keep(s[0]) then [s[0]] else []) + Filter(s[1..], keep)
  }

  /** `a` is `b` with some elements left out. */
  predicate Subsequence<T(==)>(a: seq<T>, b: seq<T>)
    decreases |b|
  {
    if a == [] then true
    else if b == [] then false
    else if a[0] == b[0] then Subsequence(a[1..], b[1..])
    else Subsequence(a, b[1..])
  }

  lemma {:induction false} FilterIsSubsequence<T>(s: seq<T>, keep: T -> bool)
    ensures Subsequence(Filter(s, keep), s)
    decreases |s|
  {
    if s != [] {
      FilterIsSubsequence(s[1..], keep);
      var r := Filter(s, keep);
      if keep(s[0]) {
        assert r[0] == s[0] && r[1..] == Filter(s[1..], keep);
      } else {
        assert r == Filter(s[1..], keep);
        if r != [] {
          assert r[0] in r;
          assert r[0] != s[0];
        }
      }
    }
  }

  /** Each element occurs in the filtered sequence as often as in `s` when kept, else never. */
  lemma {:induction false} FilterCounts<T>(s: seq<T>, keep: T -> bool, x: T)
    ensures multiset(Filter(s, keep))[x] == if keep(x) then multiset(s)[x] else 0
    decreases |s|
  {
    if s != [] {
      FilterCounts(s[1..], keep, x);
      assert s == [s[0]] + s[1..];
    }
  }

  lemma {:induction false} FilterAppend<T>(a: seq<T>, b: seq<T>, keep: T -> bool)
    ensures Filter(a + b, keep) == Filter(a, keep) + Filter(b, keep)
    decreases |a|
  {
    if a == [] {
      assert a + b == b;
    } else {
      assert (a + b)[0] == a[0] && (a + b)[1..] == a[1..] + b;
      FilterAppend(a[1..], b, keep);
    }
  }

  /** Filtering twice is filtering once by both conditions. */
  lemma {:induction false} FilterFilter<T>(s: seq<T>, p: T -> bool, q: T -> bool, both: T -> bool)
    requires forall x :: both(x) == (p(x) && q(x))
    ensures Filter(Filter(s, p), q) == Filter(s, both)
    decreases |s|
  {
    if s != [] {
      FilterFilter(s[1..], p, q, both);
      FilterAppend(if p(s[0]) then [s[0]] else [], Filter(s[1..], p), q);
    }
  }

  function OfType(records: seq<Record>, t: LogType): (r: seq<Record>)
    ensures forall i :: 0 <= i < |r| ==> r[i] in records && r[i].logType == t
    ensures forall i :: 0 <= i < |records| && records[i].logType == t ==> records[i] in r
  {
    var kept := Filter(records, (r: Record) => r.logType == t);
    assert forall i :: 0 <= i < |kept| ==> kept[i] in kept;
    kept
  }

  function OfTypeAndLevel(records: seq<Record>, t: LogType, level: Level): (r: seq<Record>)
    ensures forall i :: 0 <= i < |r| ==> r[i] in records && r[i].logType == t && r[i].level == level
    ensures forall i :: 0 <= i < |records| && records[i].logType == t && records[i].level == level
              ==> records[i] in r
  {
    var kept := Filter(records, (r: Record) => r.logType == t && r.level == level);
    assert forall i :: 0 <= i < |kept| ==> kept[i] in kept;
    kept
  }

  /** `fetchLogs(type)` holds exactly the records of that type, each as often as buffered, in buffer order. */
  lemma OfTypeExactly(records: seq<Record>, t: LogType, x: Record)
    ensures Subsequence(OfType(records, t), records)
    ensures multiset(OfType(records, t))[x] == if x.logType == t then multiset(records)[x] else 0
  {
    FilterIsSubsequence(records, (r: Record) => r.logType == t);
    FilterCounts(records, (r: Record) => r.logType == t, x);
  }

  /** `fetchLogs(type, level)` is `fetchLogs(type)` narrowed to one level, hence a subsequence of it. */
  lemma OfTypeAndLevelNarrowsOfType(records: seq<Record>, t: LogType, level: Level)
    ensures OfTypeAndLevel(records, t, level) == Filter(OfType(records, t), (r: Record) => r.level == level)
    ensures Subsequence(OfTypeAndLevel(records, t, level), OfType(records, t))
  {
    var p := (r: Record) => r.logType == t;
    var q := (r: Record) => r.level == level;
    var both := (r: Record) => r.logType == t && r.level == level;
    FilterFilter(records, p, q, both);
    FilterIsSubsequence(OfType(records, t), q);
  }

  // ---------------------------------------------------------------------------
  // The log

  /** The static state of `Log`: its configuration and the evicting buffer. */
  class Log {
    /** Set from the system property read when the class is loaded. */
    const disableLocationRecording: bool
    /** Whether the plugin runs in developer mode, where each record is echoed as text. */
    const devMode: bool
    var loggerBuffer: seq<Record>

    /** The buffer is within its bound and every buffered record's cached text is its own. */
    ghost predicate Valid()
      reads this, set r | r in loggerBuffer
    {
      |loggerBuffer| <= BufferSize && forall r :: r in loggerBuffer ==> r.Valid()
    }

    constructor (disableLocationRecording: bool, devMode: bool)
      ensures Valid() && loggerBuffer == []
      ensures this.disableLocationRecording == disableLocationRecording && this.devMode == devMode
    {
      this.disableLocationRecording := disableLocationRecording;
      this.devMode := devMode;
      loggerBuffer := [];
    }

    /** The caller a new record stores. */
    function StoredCaller(caller: Option<Caller>): (c: Option<Caller>)
      reads this
      ensures c.Some? ==> !disableLocationRecording && c == caller
      ensures !disableLocationRecording ==> c == caller
    {
      if disableLocationRecording then None else caller
    }

    /** What every typed append guarantees: one new record, offered to the buffer. */
    ghost predicate Appended(before: seq<Record>, t: LogType, level: Level, message: string, caller: Option<Caller>)
      reads this, if loggerBuffer == [] then {} else {loggerBuffer[|loggerBuffer| - 1]}
    {
      loggerBuffer != [] &&
      var r := loggerBuffer[|loggerBuffer| - 1];
      |before| <= BufferSize &&
      loggerBuffer == Offer(before, r, BufferSize) &&
      r.logType == t && r.level == level && r.message == message && r.caller == StoredCaller(caller) &&
      r.Valid() &&
      r.toStringCache == (if devMode then Some(Format(level, r.caller, message)) else None)
    }

    method Append(t: LogType, level: Level, message: string, caller: Option<Caller>)
      requires Valid()
      modifies this
      ensures Valid() && Appended(old(loggerBuffer), t, level, message, caller)
      ensures fresh(loggerBuffer[|loggerBuffer| - 1])
    {
      var record: Record;
      if disableLocationRecording {
        record := new Record(level, t, message, None);
      } else {
        record := new Record(level, t, message, caller);
      }
      ghost var before := loggerBuffer;
      assert record !in before;
      loggerBuffer := if |loggerBuffer| == BufferSize then loggerBuffer[1..] + [record] else loggerBuffer + [record];
      assert forall r :: r in loggerBuffer ==> r in before || r == record;
      DebugStdOutputs(record);
      assert forall r :: r in before ==> r.Valid();
    }

    /** In developer mode the record's text is produced (and so cached) to echo it. */
    method DebugStdOutputs(record: Record)
      requires record.Valid() && record.toStringCache == None
      modifies record
      ensures record.Valid()
      ensures record.toStringCache == if devMode then Some(Format(record.level, record.caller, record.message)) else None
    {
      if devMode {
        var _ := record.ToString();
      }
    }

    method LogDebug(level: Level, message: string, caller: Option<Caller>)
      requires Valid()
      modifies this
      ensures Valid() && Appended(old(loggerBuffer), Debug, level, message, caller)
      ensures fresh(loggerBuffer[|loggerBuffer| - 1])
    {
      Append(Debug, level, message, caller);
    }

    method LogCron(level: Level, message: string, caller: Option<Caller>)
      requires Valid()
      modifies this
      ensures Valid() && Appended(old(loggerBuffer), Cron, level, message, caller)
      ensures fresh(loggerBuffer[|loggerBuffer| - 1])
    {
      Append(Cron, level, message, caller);
    }

    method LogTransaction(level: Level, message: string, caller: Option<Caller>)
      requires Valid()
      modifies this
      ensures Valid() && Appended(old(loggerBuffer), Transaction, level, message, caller)
      ensures fresh(loggerBuffer[|loggerBuffer| - 1])
    {
      Append(Transaction, level, message, caller);
    }

    /** `fetchLogs()`: a copy of the whole buffer, oldest first. */
    method FetchLogs() returns (records: seq<Record>)
      requires Valid()
      ensures records == loggerBuffer && |records| <= BufferSize
    {
      records := loggerBuffer;
    }

    /** `fetchLogs(type)`. */
    method FetchLogsOfType(t: LogType) returns (records: seq<Record>)
      ensures records == OfType(loggerBuffer, t)
      ensures forall r :: r in records <==> r in loggerBuffer && r.logType == t
    {
      records := Filter(loggerBuffer, (r: Record) => r.logType == t);
    }

    /** `fetchLogs(type, level)`. */
    method FetchLogsOfTypeAndLevel(t: LogType, level: Level) returns (records: seq<Record>)
      ensures records == OfTypeAndLevel(loggerBuffer, t, level)
      ensures forall r :: r in records <==> r in loggerBuffer && r.logType == t && r.level == level
    {
      records := Filter(loggerBuffer, (r: Record) => r.logType == t && r.level == level);
    }
  }
}
