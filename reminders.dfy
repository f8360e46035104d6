/** The batch reminder scheduler (AppDelegate.swift, `NotificationManager`).

    The operating system's notification centre is modelled by `NotificationCenter`: the pending
    requests by identifier (adding an identifier that is already pending replaces it), a log of
    every request added, and the badge count. The delayed callback `scheduleBatch` registers with
    `DispatchQueue.main.asyncAfter` is a `Continuation` value in the manager's `timers` queue, and
    its firing is the explicit step `NotificationManager.FireTimer`. Times are whole seconds. */
module Reminders {
  import opened Wrappers
  import opened Words
  import Seqs
  import Decimal

  /** At most this many reminders are handed to the system at once. */
  const BatchSize := 64

  const Separator := "_notification_"
  const DefaultIdentifier := "default_notification"

  datatype Request = Request(identifier: string, title: string, body: string, fireOffset: nat)

  /** A callback waiting on the main queue: after `delay` seconds it schedules the batch that
      follows the one starting at `batchStartIndex`. */
  datatype Continuation = Continuation(wordList: seq<Word>, batchStartIndex: nat, interval: nat, delay: nat)

  /** The identifier rule of `scheduleNotification`: the word, the separator, the offset. */
  function Identifier(word: string, offset: nat): (r: string)
    ensures |r| > |word| + |Separator|
    ensures r[..|word|] == word && r[|word|..|word| + |Separator|] == Separator
  {
    var r := word + Separator + Decimal.NatToString(offset);
    assert r[..|word|] == word;
    assert r[|word|..|word| + |Separator|] == Separator;
    r
  }

  function ReminderFor(w: Word, offset: nat): Request {
    Request(Identifier(w.word, offset), w.word, w.meaning, offset)
  }

  function DefaultReminder(duration: nat): Request {
    Request(DefaultIdentifier, "Vocabulary Reminder", "It's time to learn a new word!", duration)
  }

  /** One past the last index of the batch starting at `start`. */
  function BatchEnd(start: nat, count: nat): (e: nat)
    requires start <= count
    ensures start <= e <= count && e - start <= BatchSize
    ensures e - start == BatchSize || e == count
  {
    Seqs.Min(start + BatchSize, count)
  }

  /** The start of the batch after the one starting at `start`, wrapping to 0 at the end. */
  function NextBatchStart(start: nat, count: nat): (n: nat)
    ensures count > 0 ==> n < count
    ensures n == 0 || n == start + BatchSize
  {
    if start + BatchSize >= count then 0 else start + BatchSize
  }

  /** When the continuation runs: the batch's own duration plus one interval. */
  function ContinuationDelay(start: nat, end: nat, interval: nat): (d: nat)
    requires start <= end
    ensures d == (end - start + 1) * interval
    ensures interval > 0 ==> d > (end - start) * interval
  {
    (end - start) * interval + interval
  }

  /** The reminders one batch hands to the system: index `start + j` fires at `(j + 1) * interval`. */
  function BatchRequests(pool: seq<Word>, start: nat, interval: nat): (r: seq<Request>)
    requires start <= |pool|
    ensures |r| == BatchEnd(start, |pool|) - start
  {
    seq(BatchEnd(start, |pool|) - start, j requires 0 <= j < BatchEnd(start, |pool|) - start =>
      ReminderFor(pool[start + j], (j + 1) * interval))
  }

  lemma BatchAt(pool: seq<Word>, start: nat, interval: nat, j: nat)
    requires start <= |pool| && start + j < BatchEnd(start, |pool|)
    ensures BatchRequests(pool, start, interval)[j] == ReminderFor(pool[start + j], (j + 1) * interval)
  {
  }

  /** Pending requests after adding `rs` in order, later identifiers replacing earlier ones. */
  function AddAll(p: map<string, Request>, rs: seq<Request>): map<string, Request>
    decreases |rs|
  {
    if rs == [] then p else AddAll(p, rs[..|rs| - 1])[rs[|rs| - 1].identifier := rs[|rs| - 1]]
  }

  lemma AddAllSnoc(p: map<string, Request>, rs: seq<Request>, r: Request)
    ensures AddAll(p, rs + [r]) == AddAll(p, rs)[r.identifier := r]
  {
    assert (rs + [r])[..|rs|] == rs;
  }

  // ---------------------------------------------------------------------------------------------
  // Properties of one batch

  lemma MulMonotone(a: nat, b: nat, k: nat)
    requires a < b && k > 0
    ensures a * k < b * k
  {
  }

  /** The batch holds the pool's indices `start ..< min(start + 64, count)` with offsets that
      strictly increase from `interval` to `(end - start) * interval`; the continuation runs one
      interval after the last of them. */
  lemma {:induction false} BatchShape(pool: seq<Word>, start: nat, interval: nat)
    requires start <= |pool| && interval > 0
    ensures var r := BatchRequests(pool, start, interval);
      var end := BatchEnd(start, |pool|);
      |r| <= BatchSize &&
      (forall j :: 0 <= j < |r| ==> r[j].title == pool[start + j].word && r[j].body == pool[start + j].meaning) &&
      (forall i, j :: 0 <= i < j < |r| ==> r[i].fireOffset < r[j].fireOffset) &&
      (|r| > 0 ==> r[0].fireOffset == interval && r[|r| - 1].fireOffset == (end - start) * interval &&
                   ContinuationDelay(start, end, interval) == r[|r| - 1].fireOffset + interval)
  {
    var r := BatchRequests(pool, start, interval);
    forall i, j | 0 <= i < j < |r| ensures r[i].fireOffset < r[j].fireOffset {
      MulMonotone(i + 1, j + 1, interval);
    }
  }

  /** How many digits `s` ends with. */
  function TrailingDigits(s: string): nat
    decreases |s|
  {
    if s == [] || !Decimal.IsDigit(s[|s| - 1]) then 0 else 1 + TrailingDigits(s[..|s| - 1])
  }

  lemma {:induction false} TrailingDigitsAfter(prefix: string, d: string)
    requires |prefix| > 0 && !Decimal.IsDigit(prefix[|prefix| - 1]) && Decimal.AllDigits(d)
    ensures TrailingDigits(prefix + d) == |d|
    decreases |d|
  {
    if d == [] {
      assert prefix + d == prefix;
    } else {
      assert (prefix + d)[..|prefix + d| - 1] == prefix + d[..|d| - 1];
      TrailingDigitsAfter(prefix, d[..|d| - 1]);
    }
  }

  /** The offset is the last part of an identifier: two equal identifiers have the same word and
      the same offset (the separator ends in '_', which is not a digit). */
  lemma IdentifierInjective(w1: string, o1: nat, w2: string, o2: nat)
    requires Identifier(w1, o1) == Identifier(w2, o2)
    ensures w1 == w2 && o1 == o2
  {
    var id := Identifier(w1, o1);
    var d1, d2 := Decimal.NatToString(o1), Decimal.NatToString(o2);
    assert id == (w1 + Separator) + d1 && id == (w2 + Separator) + d2;
    TrailingDigitsAfter(w1 + Separator, d1);
    TrailingDigitsAfter(w2 + Separator, d2);
    assert d1 == id[|id| - |d1|..] == d2;
    Decimal.NatToStringInjective(o1, o2);
    assert w1 + Separator == id[..|id| - |d1|] == w2 + Separator;
    assert w1 == (w1 + Separator)[..|w1|];
  }

  /** With a positive interval no two reminders of one batch share an identifier. */
  lemma BatchIdentifiersDistinct(pool: seq<Word>, start: nat, interval: nat)
    requires start <= |pool| && interval > 0
    ensures var r := BatchRequests(pool, start, interval);
      forall i, j :: 0 <= i < j < |r| ==> r[i].identifier != r[j].identifier
  {
    var r := BatchRequests(pool, start, interval);
    forall i, j | 0 <= i < j < |r| ensures r[i].identifier != r[j].identifier {
      MulMonotone(i + 1, j + 1, interval);
      if r[i].identifier == r[j].identifier {
        IdentifierInjective(pool[start + i].word, (i + 1) * interval, pool[start + j].word, (j + 1) * interval);
      }
    }
  }

  /** Adding requests with distinct identifiers to an empty centre leaves every one of them pending. */
  lemma {:induction false} AllPending(rs: seq<Request>)
    requires forall i, j :: 0 <= i < j < |rs| ==> rs[i].identifier != rs[j].identifier
    ensures |AddAll(map[], rs)| == |rs|
    ensures forall i :: 0 <= i < |rs| ==> rs[i].identifier in AddAll(map[], rs) && AddAll(map[], rs)[rs[i].identifier] == rs[i]
    decreases |rs|
  {
    if rs != [] {
      var front := rs[..|rs| - 1];
      AllPending(front);
      var last := rs[|rs| - 1];
      assert last.identifier !in AddAll(map[], front) by {
        if last.identifier in AddAll(map[], front) {
          PendingComesFrom(front, last.identifier);
        }
      }
    }
  }

  /** Every identifier pending after adding `rs` to an empty centre is one of theirs. */
  lemma {:induction false} PendingComesFrom(rs: seq<Request>, id: string)
    requires id in AddAll(map[], rs)
    ensures exists i :: 0 <= i < |rs| && rs[i].identifier == id
    decreases |rs|
  {
    var front := rs[..|rs| - 1];
    if id != rs[|rs| - 1].identifier {
      PendingComesFrom(front, id);
      var i :| 0 <= i < |front| && front[i].identifier == id;
      assert rs[i] == front[i];
    }
  }

  /** The worked example: a 70-word pool gives a batch of 64 at offsets 1..64 intervals, a
      continuation at 65 intervals, then a batch of 6 after which the start wraps to 0. */
  lemma SeventyWordPool(pool: seq<Word>, interval: nat)
    requires |pool| == 70 && interval > 0
    ensures |BatchRequests(pool, 0, interval)| == 64
    ensures BatchRequests(pool, 0, interval)[0].fireOffset == interval
    ensures BatchRequests(pool, 0, interval)[63].fireOffset == 64 * interval
    ensures ContinuationDelay(0, BatchEnd(0, 70), interval) == 65 * interval
    ensures NextBatchStart(0, 70) == 64
    ensures |BatchRequests(pool, 64, interval)| == 6
    ensures BatchRequests(pool, 64, interval)[5].fireOffset == 6 * interval
    ensures NextBatchStart(64, 70) == 0
  {
  }

  // ---------------------------------------------------------------------------------------------
  // The chain of batches

  /** The start index of the `k`-th batch of the chain that begins at 0. */
  function StartAt(count: nat, k: nat): nat {
    if k == 0 then 0 else NextBatchStart(StartAt(count, k - 1), count)
  }

  /** How many batches one pass over the pool takes: `ceil(count / 64)`. */
  function BatchesPerCycle(count: nat): (b: nat)
    ensures count > 0 ==> b >= 1
  {
    (count + BatchSize - 1) / BatchSize
  }

  lemma CeilBound(m: nat, count: nat)
    requires count > 0
    ensures m * BatchSize >= count <==> m >= BatchesPerCycle(count)
  {
  }

  /** During the first pass the `k`-th batch starts at `k * 64`, inside the pool. */
  lemma {:induction false} FirstPass(count: nat, k: nat)
    requires count > 0 && k < BatchesPerCycle(count)
    ensures StartAt(count, k) == k * BatchSize < count
  {
    CeilBound(k, count);
    if k > 0 {
      FirstPass(count, k - 1);
    }
  }

  /** After one pass over the pool the chain starts again at index 0. */
  lemma PassWraps(count: nat)
    requires count > 0
    ensures StartAt(count, BatchesPerCycle(count)) == 0
  {
    var b := BatchesPerCycle(count);
    FirstPass(count, b - 1);
    CeilBound(b, count);
  }

  /** The chain repeats the same batches forever: it never ends on its own. */
  lemma {:induction false} ChainCycles(count: nat, k: nat)
    requires count > 0
    ensures StartAt(count, k + BatchesPerCycle(count)) == StartAt(count, k)
  {
    if k == 0 {
      PassWraps(count);
    } else {
      ChainCycles(count, k - 1);
      assert k + BatchesPerCycle(count) - 1 == k - 1 + BatchesPerCycle(count);
    }
  }

  // ---------------------------------------------------------------------------------------------
  // The system notification centre and the manager

  class NotificationCenter {
    /** Pending requests by identifier. */
    var pending: map<string, Request>
    /** Every request added, in order. */
    var log: seq<Request>
    var badge: int

    constructor ()
      ensures pending == map[] && log == [] && badge == 0
    {
      pending := map[];
      log := [];
      badge := 0;
    }

    method Add(r: Request)
      modifies this
      ensures pending == old(pending)[r.identifier := r]
      ensures log == old(log) + [r] && badge == old(badge)
    {
      pending := pending[r.identifier := r];
      log := log + [r];
    }

    method RemoveAllPendingNotificationRequests()
      modifies this
      ensures pending == map[] && log == old(log) && badge == old(badge)
    {
      pending := map[];
    }

    method SetBadgeCount(n: int)
      modifies this
      ensures badge == n && pending == old(pending) && log == old(log)
    {
      badge := n;
    }
  }

  class NotificationManager {
    const center: NotificationCenter
    /** Callbacks registered with `asyncAfter` and not yet run. */
    var timers: seq<Continuation>

    constructor (center: NotificationCenter)
      ensures this.center == center && timers == []
    {
      this.center := center;
      timers := [];
    }

    /** `scheduleWordNotifications(duration:)`; `loaded` is what `loadWords(style: .concise)` gave.
        Without a pool exactly one default reminder is added and no chain starts; otherwise every
        pending request is removed and batch 0 is scheduled. */
    method ScheduleWordNotifications(duration: nat, loaded: Option<seq<Word>>)
      modifies this, center
      ensures loaded.None? ==>
        center.pending == old(center.pending)[DefaultIdentifier := DefaultReminder(duration)] &&
        center.log == old(center.log) + [DefaultReminder(duration)] && timers == old(timers)
      ensures loaded.Some? ==>
        center.pending == AddAll(map[], BatchRequests(loaded.value, 0, duration)) &&
        center.log == old(center.log) + BatchRequests(loaded.value, 0, duration) &&
        timers == old(timers) + [Continuation(loaded.value, 0, duration,
                                              ContinuationDelay(0, BatchEnd(0, |loaded.value|), duration))]
      ensures center.badge == old(center.badge)
    {
      if loaded.None? {
        ScheduleDefaultWordNotification(duration);
        return;
      }
      center.RemoveAllPendingNotificationRequests();
      ScheduleBatch(loaded.value, 0, duration);
    }

    method ScheduleDefaultWordNotification(duration: nat)
      modifies center
      ensures center.pending == old(center.pending)[DefaultIdentifier := DefaultReminder(duration)]
      ensures center.log == old(center.log) + [DefaultReminder(duration)] && center.badge == old(center.badge)
    {
      center.Add(DefaultReminder(duration));
    }

    /** `stopAllNotifications`: clears the pending requests and the badge. The callbacks already
        on the main queue are left alone, so a chain keeps going (see `StopDoesNotEndChain`). */
    method StopAllNotifications()
      modifies center
      ensures center.pending == map[] && center.badge == 0 && center.log == old(center.log)
    {
      center.RemoveAllPendingNotificationRequests();
      center.SetBadgeCount(0);
    }

    /** `scheduleBatch`: one request per index of the batch, then the continuation. `start` is 0 or
        a value `NextBatchStart` produced, so it never exceeds the pool. */
    method ScheduleBatch(wordList: seq<Word>, start: nat, interval: nat)
      requires start <= |wordList|
      modifies this, center
      ensures center.log == old(center.log) + BatchRequests(wordList, start, interval)
      ensures center.pending == AddAll(old(center.pending), BatchRequests(wordList, start, interval))
      ensures center.badge == old(center.badge)
      ensures timers == old(timers) + [Continuation(wordList, start, interval,
                                                    ContinuationDelay(start, BatchEnd(start, |wordList|), interval))]
    {
      var count := |wordList|;
      var endIndex := Seqs.Min(start + BatchSize, count);
      ghost var batch := BatchRequests(wordList, start, interval);
      ghost var pending0 := center.pending;
      ghost var log0 := center.log;
      for i := start to endIndex
        invariant center.log == log0 + batch[..i - start]
        invariant center.pending == AddAll(pending0, batch[..i - start])
        invariant center.badge == old(center.badge)
        invariant timers == old(timers)
      {
        var offset := (i - start + 1) * interval;
        BatchAt(wordList, start, interval, i - start);
        ScheduleNotification(wordList[i], offset);
        assert batch[..i + 1 - start] == batch[..i - start] + [batch[i - start]];
        AddAllSnoc(pending0, batch[..i - start], batch[i - start]);
      }
      assert batch[..endIndex - start] == batch;
      var notificationsInBatch := endIndex - start;
      var delayBeforeNextBatch := notificationsInBatch * interval + interval;
      timers := timers + [Continuation(wordList, start, interval, delayBeforeNextBatch)];
    }

    method ScheduleNotification(word: Word, offset: nat)
      modifies center
      ensures center.pending == old(center.pending)[Identifier(word.word, offset) := ReminderFor(word, offset)]
      ensures center.log == old(center.log) + [ReminderFor(word, offset)] && center.badge == old(center.badge)
    {
      center.Add(ReminderFor(word, offset));
    }

    /** The main queue runs the `k`-th waiting callback: it computes the next start (wrapping to
        0) and schedules that batch, which queues the next callback. */
    method FireTimer(k: nat)
      requires k < |timers|
      modifies this, center
      ensures var c := old(timers[k]);
        var next := NextBatchStart(c.batchStartIndex, |c.wordList|);
        center.log == old(center.log) + BatchRequests(c.wordList, next, c.interval) &&
        center.pending == AddAll(old(center.pending), BatchRequests(c.wordList, next, c.interval)) &&
        center.badge == old(center.badge) &&
        timers == old(timers[..k] + timers[k + 1..]) +
                  [Continuation(c.wordList, next, c.interval, ContinuationDelay(next, BatchEnd(next, |c.wordList|), c.interval))]
    {
      var c := timers[k];
      timers := timers[..k] + timers[k + 1..];
      var nextBatchStart := c.batchStartIndex + BatchSize;
      if nextBatchStart >= |c.wordList| {
        nextBatchStart := 0;
      }
      ScheduleBatch(c.wordList, nextBatchStart, c.interval);
    }
  }

  /** Stopping does not end a running chain: start reminders for a non-empty pool, stop them all,
      and when the continuation that was already queued runs, reminders are pending again. */
  method StopDoesNotEndChain(pool: seq<Word>, interval: nat) returns (pendingAfterStop: nat, pendingAfterTimer: nat)
    requires |pool| > 0 && interval > 0
    ensures pendingAfterStop == 0 && pendingAfterTimer > 0
  {
    var center := new NotificationCenter();
    var manager := new NotificationManager(center);
    manager.ScheduleWordNotifications(interval, Some(pool));
    manager.StopAllNotifications();
    pendingAfterStop := |center.pending|;
    manager.FireTimer(0);
    var next := NextBatchStart(0, |pool|);
    var batch := BatchRequests(pool, next, interval);
    BatchIdentifiersDistinct(pool, next, interval);
    AllPending(batch);
    pendingAfterTimer := |center.pending|;
  }
}
