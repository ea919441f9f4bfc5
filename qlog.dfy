/** QLog's in-memory log: entries are queued on a pending list from any
    thread and moved, by `flush`, to the end of a bounded entry list that
    drops its oldest entries once it holds more than the limit. Option
    logging is filtered by a 32-bit mask with one bit per option. */
module QLog {

  /** The options mask, an NSUInteger (32 bits on the devices QLog targets). */
  type OptionsMask = bv32

  /** The application's log options (Logging.h). */
  const LogOptionNetworkData: nat := 0
  const LogOptionSyncDetails: nat := 1
  const LogOptionXMLParseDetails: nat := 2
  const LogOptionNetworkDetails: nat := 3

  /** One bit per option: options 0 to 31 (the qlogOption0..31 defaults). */
  predicate IsOption(option: nat) {
    option < 32
  }

  /** `logOption:`'s filter: the option's bit is set in the mask. An empty
      mask logs nothing and a full one logs every option. */
  function ShouldLogOption(optionsMask: OptionsMask, option: nat): (logged: bool)
    requires IsOption(option)
    ensures optionsMask == 0 ==> !logged
    ensures optionsMask == 0xFFFF_FFFF ==> logged
  {
    optionsMask & (1 << option) != 0
  }

  /** Each application option is its own bit, so masks select them
      independently. */
  lemma ApplicationOptionsAreDistinctBits(optionsMask: OptionsMask)
    ensures ShouldLogOption(optionsMask, LogOptionNetworkData) <==> optionsMask & 1 != 0
    ensures ShouldLogOption(optionsMask, LogOptionSyncDetails) <==> optionsMask & 2 != 0
    ensures ShouldLogOption(optionsMask, LogOptionXMLParseDetails) <==> optionsMask & 4 != 0
    ensures ShouldLogOption(optionsMask, LogOptionNetworkDetails) <==> optionsMask & 8 != 0
  {
  }

  /** Setting more bits in the mask never stops an option from being
      logged. */
  lemma ShouldLogOptionIsMonotonic(optionsMask: OptionsMask, wider: OptionsMask, option: nat)
    requires IsOption(option) && optionsMask & wider == optionsMask
    ensures ShouldLogOption(optionsMask, option) ==> ShouldLogOption(wider, option)
  {
  }

  /** The newest `limit` entries of `entries`, in order. */
  function KeepLast(entries: seq<string>, limit: nat): (kept: seq<string>)
    ensures |kept| == if |entries| <= limit then |entries| else limit
    ensures kept == entries[|entries| - |kept|..]
  {
    if |entries| <= limit then entries else entries[|entries| - limit..]
  }

  /** Trimming a suffix that is at least as long as the limit allows gives
      the same entries as trimming the whole list. */
  lemma KeepLastOfSuffix(entries: seq<string>, suffix: seq<string>, limit: nat)
    requires |suffix| <= |entries| && suffix == entries[|entries| - |suffix|..]
    requires |suffix| >= limit || |suffix| == |entries|
    ensures KeepLast(suffix, limit) == KeepLast(entries, limit)
  {
    if |suffix| < |entries| {
      var kept := KeepLast(suffix, limit);
      assert |kept| == limit;
      assert forall i :: 0 <= i < limit ==> kept[i] == entries[|entries| - limit + i];
    }
  }

  /** Appending one entry and trimming after each append keeps the same
      entries as trimming once at the end. */
  lemma {:induction false} KeepLastAppend(entries: seq<string>, entry: string, limit: nat)
    ensures KeepLast(KeepLast(entries, limit) + [entry], limit) == KeepLast(entries + [entry], limit)
  {
    var whole := entries + [entry];
    var suffix := KeepLast(entries, limit) + [entry];
    assert suffix == whole[|whole| - |suffix|..];
    KeepLastOfSuffix(whole, suffix, limit);
  }

  class QLog {
    /** The number of entries kept in memory. */
    const logEntryLimit: nat
    var enabled: bool
    var optionsMask: OptionsMask
    var logEntries: seq<string>
    var pendingEntries: seq<string>

    ghost predicate Valid()
      reads this
    {
      |logEntries| <= logEntryLimit
    }

    /** A log with the given preferences and nothing logged yet. */
    constructor (logEntryLimit: nat, enabled: bool, optionsMask: OptionsMask)
      ensures Valid() && this.logEntryLimit == logEntryLimit
      ensures this.enabled == enabled && this.optionsMask == optionsMask
      ensures logEntries == [] && pendingEntries == []
    {
      this.logEntryLimit := logEntryLimit;
      this.enabled := enabled;
      this.optionsMask := optionsMask;
      logEntries := [];
      pendingEntries := [];
    }

    /** `logWithFormat:`: when logging is enabled, the formatted entry is
        queued; it reaches `logEntries` at the next flush. */
    method LogWithFormat(entry: string)
      requires Valid()
      modifies this`pendingEntries
      ensures Valid()
      ensures pendingEntries == old(pendingEntries) + (if enabled then [entry] else [])
    {
      if enabled {
        pendingEntries := pendingEntries + [entry];
      }
    }

    /** `logOption:withFormat:`: logs only when the option's bit is set. */
    method LogOption(option: nat, entry: string)
      requires Valid() && IsOption(option)
      modifies this`pendingEntries
      ensures Valid()
      ensures pendingEntries == old(pendingEntries) + (if enabled && ShouldLogOption(optionsMask, option) then [entry] else [])
    {
      if ShouldLogOption(optionsMask, option) {
        LogWithFormat(entry);
      }
    }

    /** `flush`: every pending entry, in order, goes to the end of
        `logEntries`, which drops its oldest entries whenever it holds more
        than the limit; nothing is left pending. */
    method Flush()
      requires Valid()
      modifies this`logEntries, this`pendingEntries
      ensures Valid() && pendingEntries == []
      ensures logEntries == KeepLast(old(logEntries) + old(pendingEntries), logEntryLimit)
    {
      var entries := pendingEntries;
      pendingEntries := [];
      var i := 0;
      assert KeepLast(old(logEntries), logEntryLimit) == old(logEntries);
      while i < |entries|
        invariant 0 <= i <= |entries|
        invariant logEntries == KeepLast(old(logEntries) + entries[..i], logEntryLimit)
        invariant pendingEntries == []
      {
        KeepLastAppend(old(logEntries) + entries[..i], entries[i], logEntryLimit);
        assert old(logEntries) + entries[..i + 1] == old(logEntries) + entries[..i] + [entries[i]];
        logEntries := logEntries + [entries[i]];
        if |logEntries| > logEntryLimit {
          logEntries := logEntries[|logEntries| - logEntryLimit..];
        }
        i := i + 1;
      }
      assert entries[..i] == entries;
    }

    /** `clear`: empties the in-memory log. */
    method Clear()
      requires Valid()
      modifies this`logEntries
      ensures Valid() && logEntries == []
    {
      logEntries := [];
    }
  }

  /** Logging a run of entries under one option and flushing: with the
      option's bit set and logging enabled the log holds the newest
      `limit` of them in order, otherwise nothing; either way nothing is
      left pending. */
  method LogAndFlush(limit: nat, enabled: bool, optionsMask: OptionsMask, option: nat, entries: seq<string>)
    returns (logged: seq<string>, pending: seq<string>)
    requires IsOption(option)
    ensures logged == (if enabled && ShouldLogOption(optionsMask, option) then KeepLast(entries, limit) else [])
    ensures pending == [] && |logged| <= limit
  {
    var log := new QLog(limit, enabled, optionsMask);
    var i := 0;
    while i < |entries|
      invariant 0 <= i <= |entries| && log.Valid()
      invariant log.logEntryLimit == limit && log.enabled == enabled && log.optionsMask == optionsMask
      invariant log.logEntries == []
      invariant log.pendingEntries == if enabled && ShouldLogOption(optionsMask, option) then entries[..i] else []
    {
      log.LogOption(option, entries[i]);
      assert entries[..i + 1] == entries[..i] + [entries[i]];
      i := i + 1;
    }
    assert entries[..i] == entries;
    log.Flush();
    logged, pending := log.logEntries, log.pendingEntries;
  }

  /** Clearing after a flush leaves an empty log, and an entry logged after
      the clear is then the only one kept. */
  method ClearThenLog(limit: nat, before: string, after: string)
    returns (flushed: seq<string>, cleared: seq<string>, logged: seq<string>)
    requires limit >= 1
    ensures flushed == [before] && cleared == [] && logged == [after]
  {
    var log := new QLog(limit, true, 0);
    log.LogWithFormat(before);
    assert [] + log.pendingEntries == [before];
    log.Flush();
    flushed := log.logEntries;
    log.Clear();
    cleared := log.logEntries;
    log.LogWithFormat(after);
    assert [] + log.pendingEntries == [after];
    log.Flush();
    logged := log.logEntries;
  }
}
