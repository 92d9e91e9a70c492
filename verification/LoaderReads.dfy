/** What the loaders of listbin.go answer: the file that was read for the key, over every interleaving. */
module SingleFlightReads {
  import opened Wrappers
  import opened SingleFlight

  /** At step i caller t reads and parses the file for load l; the label tells what came of it. */
  predicate ReadsAt(ss: seq<State>, es: seq<Label>, i: int, t: nat, l: nat) {
    && 0 <= i < |es| && i < |ss|
    && es[i].Move? && es[i].t == t && t < |ss[i].callers| && ss[i].callers[t].pc == Reading(l)
  }

  /** The caller has the outcome of its read in hand, or has returned it. */
  predicate Holds(pc: Pc, file: Answer) {
    match pc
    case Filling(_, v) => file == Some(v)
    case Marking(_, v) => file == Some(v)
    case Publishing(_, r) => file == r
    case Storing(_, r) => file == r
    case Unlisting(_, r) => file == r
    case Closing(_, r) => file == r
    case Leaving(r) => file == r
    case Returned(r) => file == r
    case _ => false
  }

  /** The caller has read the file for load l and not left yet. */
  predicate PastReading(pc: Pc, l: nat) {
    (pc.Filling? || pc.Marking? || pc.Publishing? || pc.Storing? || pc.Unlisting? || pc.Closing?) && pc.load == l
  }

  lemma {:induction false} ReaderHolds(which: Loader, ss: seq<State>, es: seq<Label>, i: nat, j: nat, t: nat, l: nat)
    requires Run(which, ss, es) && ReadsAt(ss, es, i, t, l) && i < j < |ss|
    ensures t < |ss[j].callers| && ss[j].callers[t].key == ss[i].callers[t].key
    ensures Holds(ss[j].callers[t].pc, es[i].file)
    decreases j
  {
    if i < j - 1 {
      ReaderHolds(which, ss, es, i, j - 1, t, l);
    }
    assert ss[j - 1 + 1] == Step(which, ss[j - 1], es[j - 1]);
  }

  /** Nobody gets past the reading of a load without reading it. */
  lemma {:induction false} PastReadingHasRead(which: Loader, ss: seq<State>, es: seq<Label>, n: nat, t: nat, l: nat)
    requires Run(which, ss, es) && n < |ss| && t < |ss[n].callers| && PastReading(ss[n].callers[t].pc, l)
    ensures exists i :: i < n && ReadsAt(ss, es, i, t, l)
  {
    assert n > 0;
    assert ss[n - 1 + 1] == Step(which, ss[n - 1], es[n - 1]);
    if t < |ss[n - 1].callers| && PastReading(ss[n - 1].callers[t].pc, l) {
      PastReadingHasRead(which, ss, es, n - 1, t, l);
    } else {
      assert ReadsAt(ss, es, n - 1, t, l);
    }
  }

  lemma {:induction false} LeavingHasRead(which: Loader, ss: seq<State>, es: seq<Label>, n: nat, t: nat)
    requires Run(which, ss, es) && n < |ss| && t < |ss[n].callers| && ss[n].callers[t].pc.Leaving?
    ensures exists i, l :: i < n && ReadsAt(ss, es, i, t, l)
  {
    assert n > 0;
    assert ss[n - 1 + 1] == Step(which, ss[n - 1], es[n - 1]);
    if ss[n - 1].callers[t].pc.Leaving? {
      LeavingHasRead(which, ss, es, n - 1, t);
    } else {
      PastReadingHasRead(which, ss, es, n - 1, t, ss[n - 1].callers[t].pc.load);
    }
  }

  // ---- Loads ----

  lemma LoadStays(which: Loader, s: State, e: Label, l: nat)
    requires Inv(which, s) && Enabled(s, e) && l < |s.loads|
    ensures var v := Step(which, s, e);
            && l < |v.loads| && v.loads[l].key == s.loads[l].key && v.loads[l].owner == s.loads[l].owner
            && (s.loads[l].closed ==> v.loads[l] == s.loads[l])
            && (!s.loads[l].closed && v.loads[l].closed ==>
                  e.Move? && s.callers[e.t].pc == Closing(l, LoadAnswer(which, v.loads[l])) && s.callers[e.t].key == s.loads[l].key)
  {
    hide LockOk, KeyOk, LoadOk;
    if e.Move? {
      assert CallerOk(which, s, e.t);
    }
  }

  lemma NewLoadsOpen(which: Loader, s: State, e: Label, l: nat)
    requires Enabled(s, e) && |s.loads| <= l < |Step(which, s, e).loads|
    ensures !Step(which, s, e).loads[l].closed
  {
  }

  lemma {:induction false} LoadKept(which: Loader, ss: seq<State>, es: seq<Label>, i: nat, j: nat, l: nat)
    requires Run(which, ss, es) && i <= j < |ss| && l < |ss[i].loads|
    ensures l < |ss[j].loads| && ss[j].loads[l].key == ss[i].loads[l].key && ss[j].loads[l].owner == ss[i].loads[l].owner
    ensures ss[i].loads[l].closed ==> ss[j].loads[l] == ss[i].loads[l]
    decreases j
  {
    hide Inv, Step, Enabled;
    if i < j {
      LoadKept(which, ss, es, i, j - 1, l);
      RunInv(which, ss, es, j - 1);
      assert ss[j - 1 + 1] == Step(which, ss[j - 1], es[j - 1]);
      LoadStays(which, ss[j - 1], es[j - 1], l);
    }
  }

  /** A closed load was read for its key, and what was read is what those who joined it return. */
  lemma {:induction false} ClosedWasRead(which: Loader, ss: seq<State>, es: seq<Label>, n: nat, l: nat)
    requires Run(which, ss, es) && n < |ss| && l < |ss[n].loads| && ss[n].loads[l].closed
    ensures exists i: int, t: nat :: i < n && ReadsAt(ss, es, i, t, l) && es[i].file == LoadAnswer(which, ss[n].loads[l])
                           && ss[i].callers[t].key == ss[n].loads[l].key
  {
    hide Inv, LoadAnswer, NextPc;
    assert n > 0;
    RunInv(which, ss, es, n - 1);
    assert ss[n - 1 + 1] == Step(which, ss[n - 1], es[n - 1]);
    if l >= |ss[n - 1].loads| {
      NewLoadsOpen(which, ss[n - 1], es[n - 1], l);
    }
    hide Step;
    LoadStays(which, ss[n - 1], es[n - 1], l);
    if ss[n - 1].loads[l].closed {
      ClosedWasRead(which, ss, es, n - 1, l);
    } else {
      var t := es[n - 1].t;
      PastReadingHasRead(which, ss, es, n - 1, t, l);
      var i :| i < n - 1 && ReadsAt(ss, es, i, t, l);
      ReaderHolds(which, ss, es, i, n - 1, t, l);
    }
  }

  /** A load is read once. */
  lemma OneRead(which: Loader, ss: seq<State>, es: seq<Label>, i: nat, j: nat, t: nat, u: nat, l: nat)
    requires Run(which, ss, es) && ReadsAt(ss, es, i, t, l) && ReadsAt(ss, es, j, u, l)
    ensures i == j
  {
    ReadersOwn(which, ss, es, i, t, l);
    ReadersOwn(which, ss, es, j, u, l);
    if i < j {
      LoadKept(which, ss, es, i, j, l);
      ReaderHolds(which, ss, es, i, j, t, l);
    } else if j < i {
      LoadKept(which, ss, es, j, i, l);
      ReaderHolds(which, ss, es, j, i, u, l);
    }
  }

  lemma ReadersOwn(which: Loader, ss: seq<State>, es: seq<Label>, i: nat, t: nat, l: nat)
    requires Run(which, ss, es) && ReadsAt(ss, es, i, t, l)
    ensures l < |ss[i].loads| && ss[i].loads[l].owner == t
  {
    RunInv(which, ss, es, i);
    assert CallerOk(which, ss[i], t);
  }

  // ---- Answers are files ----

  /** At step i caller t reads the file of key k, and file is what came of it. */
  ghost predicate Reads(ss: seq<State>, es: seq<Label>, i: int, t: nat, k: Key, file: Answer) {
    && 0 <= i < |es| && i < |ss| && es[i] == Move(t, file)
    && t < |ss[i].callers| && ss[i].callers[t].pc.Reading? && ss[i].callers[t].key == k
  }

  /** What is cached for a key was read for it; loadListBinIndex caches successes only. */
  lemma {:induction false} CachedWasRead(which: Loader, ss: seq<State>, es: seq<Label>, j: nat, k: Key)
    requires Run(which, ss, es) && j < |ss| && k in ss[j].cache
    ensures exists i, t :: i < j && Reads(ss, es, i, t, k, ss[j].cache[k])
    ensures which.ListBin? ==> ss[j].cache[k].Some?
  {
    hide Inv, NextPc;
    assert j > 0;
    RunInv(which, ss, es, j);
    RunInv(which, ss, es, j - 1);
    assert ss[j - 1 + 1] == Step(which, ss[j - 1], es[j - 1]);
    CachedKeyOk(which, ss[j], k);
    if k in ss[j - 1].cache {
      StepKeepsCache(which, ss[j - 1], es[j - 1], k);
      CachedWasRead(which, ss, es, j - 1, k);
    } else {
      var t := es[j - 1].t;
      var l := ss[j - 1].callers[t].pc.load;
      PastReadingHasRead(which, ss, es, j - 1, t, l);
      var i :| i < j - 1 && ReadsAt(ss, es, i, t, l);
      ReaderHolds(which, ss, es, i, j - 1, t, l);
      assert Reads(ss, es, i, t, k, ss[j].cache[k]);
    }
  }

  lemma CachedKeyOk(which: Loader, s: State, k: Key)
    requires Inv(which, s) && k in s.cache
    ensures which.ListBin? ==> s.cache[k].Some?
  {
    assert KeyOk(which, s, k);
  }

  /** The four ways to an answer. */
  predicate Answers(which: Loader, s: State, pc: Pc, r: Answer) {
    || (pc.FastSeen? && pc.seen == Some(r))
    || pc == Hit(r)
    || pc == Leaving(r)
    || (pc.Waiting? && pc.load < |s.loads| && s.loads[pc.load].closed && r == LoadAnswer(which, s.loads[pc.load]))
  }

  lemma ReturnStep(which: Loader, s: State, e: Label, u: nat)
    requires Enabled(s, e) && u < |Step(which, s, e).callers| && Step(which, s, e).callers[u].pc.Returned?
    ensures u < |s.callers| && s.callers[u].key == Step(which, s, e).callers[u].key
    ensures s.callers[u].pc == Step(which, s, e).callers[u].pc || Answers(which, s, s.callers[u].pc, Step(which, s, e).callers[u].pc.answer)
  {
    hide LoadAnswer;
  }

  /** Every answer, whether found cached, joined or led, is what some caller read for that key before. */
  lemma {:induction false} AnswerWasRead(which: Loader, ss: seq<State>, es: seq<Label>, j: nat, u: nat)
    requires Run(which, ss, es) && j < |ss| && u < |ss[j].callers| && ss[j].callers[u].pc.Returned?
    ensures exists i, t :: i < j && Reads(ss, es, i, t, ss[j].callers[u].key, ss[j].callers[u].pc.answer)
  {
    hide Inv, LoadAnswer, Step, Enabled;
    assert j > 0;
    RunInv(which, ss, es, j - 1);
    assert ss[j - 1 + 1] == Step(which, ss[j - 1], es[j - 1]);
    ReturnStep(which, ss[j - 1], es[j - 1], u);
    var s, k, r := ss[j - 1], ss[j].callers[u].key, ss[j].callers[u].pc.answer;
    var pc := s.callers[u].pc;
    AnswerAtHand(which, s, u);
    if pc.Returned? {
      AnswerWasRead(which, ss, es, j - 1, u);
    } else if pc.FastSeen? || pc.Hit? {
      CachedWasRead(which, ss, es, j - 1, k);
    } else if pc.Waiting? {
      JoinedWasRead(which, ss, es, j - 1, k, pc.load);
    } else {
      LedWasRead(which, ss, es, j - 1, u);
    }
  }

  lemma JoinedWasRead(which: Loader, ss: seq<State>, es: seq<Label>, n: nat, k: Key, l: nat)
    requires Run(which, ss, es) && n < |ss| && l < |ss[n].loads| && ss[n].loads[l].closed && ss[n].loads[l].key == k
    ensures exists i, t :: i < n && Reads(ss, es, i, t, k, LoadAnswer(which, ss[n].loads[l]))
  {
    hide LoadAnswer;
    ClosedWasRead(which, ss, es, n, l);
    var i: int, t: nat :| i < n && ReadsAt(ss, es, i, t, l) && es[i].file == LoadAnswer(which, ss[n].loads[l])
                && ss[i].callers[t].key == ss[n].loads[l].key;
    assert Reads(ss, es, i, t, k, LoadAnswer(which, ss[n].loads[l]));
  }

  lemma LedWasRead(which: Loader, ss: seq<State>, es: seq<Label>, n: nat, u: nat)
    requires Run(which, ss, es) && n < |ss| && u < |ss[n].callers| && ss[n].callers[u].pc.Leaving?
    ensures exists i, t :: i < n && Reads(ss, es, i, t, ss[n].callers[u].key, ss[n].callers[u].pc.outcome)
  {
    LeavingHasRead(which, ss, es, n, u);
    var i, l :| i < n && ReadsAt(ss, es, i, u, l);
    ReaderHolds(which, ss, es, i, n, u, l);
    assert Reads(ss, es, i, u, ss[n].callers[u].key, ss[n].callers[u].pc.outcome);
  }

  lemma AnswerAtHand(which: Loader, s: State, u: nat)
    requires Inv(which, s) && u < |s.callers|
    ensures var k, pc := s.callers[u].key, s.callers[u].pc;
            && (pc.FastSeen? && pc.seen.Some? ==> k in s.cache && s.cache[k] == pc.seen.value)
            && (pc.Hit? ==> k in s.cache && s.cache[k] == pc.value)
            && (pc.Waiting? ==> pc.load < |s.loads| && s.loads[pc.load].key == k)
  {
    assert CallerOk(which, s, u);
  }

  /** Who reads a file returns it. */
  lemma LeaderReturnsFile(which: Loader, ss: seq<State>, es: seq<Label>, i: nat, j: nat, t: nat, k: Key, file: Answer)
    requires Run(which, ss, es) && Reads(ss, es, i, t, k, file) && i <= j < |ss|
    requires t < |ss[j].callers| && ss[j].callers[t].pc.Returned?
    ensures ss[j].callers[t].pc.answer == file
  {
    assert ReadsAt(ss, es, i, t, ss[i].callers[t].pc.load);
    if i < j {
      ReaderHolds(which, ss, es, i, j, t, ss[i].callers[t].pc.load);
    }
  }

  /** And once it has returned, a file that was read well is cached for its key; loadInfoIndex caches a failure, too. */
  lemma LeaderCachesFile(which: Loader, ss: seq<State>, es: seq<Label>, i: nat, j: nat, t: nat, k: Key, file: Answer)
    requires Run(which, ss, es) && Reads(ss, es, i, t, k, file) && i <= j < |ss|
    requires t < |ss[j].callers| && ss[j].callers[t].pc.Returned?
    ensures file.Some? || which.Info? ==> k in ss[j].cache && ss[j].cache[k] == file
  {
    LeaderReturnsFile(which, ss, es, i, j, t, k, file);
    if i < j {
      ReaderHolds(which, ss, es, i, j, t, ss[i].callers[t].pc.load);
    }
    RunInv(which, ss, es, j);
    assert CallerOk(which, ss[j], t);
  }

  lemma {:induction false} AfterWaiting(which: Loader, ss: seq<State>, es: seq<Label>, m: nat, j: nat, u: nat, l: nat)
    requires Run(which, ss, es) && m <= j < |ss| && u < |ss[m].callers| && ss[m].callers[u].pc == Waiting(l)
    ensures u < |ss[j].callers|
    ensures var pc := ss[j].callers[u].pc;
            || pc == Waiting(l)
            || (pc.Returned? && l < |ss[j].loads| && ss[j].loads[l].closed && pc.answer == LoadAnswer(which, ss[j].loads[l]))
    decreases j
  {
    hide Inv, LoadAnswer, Step, Enabled;
    if m < j {
      AfterWaiting(which, ss, es, m, j - 1, u, l);
      assert ss[j - 1 + 1] == Step(which, ss[j - 1], es[j - 1]);
      RunInv(which, ss, es, j - 1);
      AnswerAtHand(which, ss[j - 1], u);
      WaitStep(which, ss[j - 1], es[j - 1], u);
      if l < |ss[j - 1].loads| {
        LoadStays(which, ss[j - 1], es[j - 1], l);
      }
    }
  }

  lemma WaitStep(which: Loader, s: State, e: Label, u: nat)
    requires Enabled(s, e) && u < |s.callers| && (s.callers[u].pc.Waiting? || s.callers[u].pc.Returned?)
    ensures u < |Step(which, s, e).callers|
    ensures var pc := Step(which, s, e).callers[u].pc;
            pc == s.callers[u].pc || (pc.Returned? && Answers(which, s, s.callers[u].pc, pc.answer))
  {
    hide LoadAnswer;
  }

  /** Who waits on a load returns the file its leader read. */
  lemma WaiterReturnsFile(which: Loader, ss: seq<State>, es: seq<Label>, i: nat, m: nat, j: nat, t: nat, u: nat, l: nat)
    requires Run(which, ss, es) && ReadsAt(ss, es, i, t, l)
    requires m <= j < |ss| && u < |ss[m].callers| && ss[m].callers[u].pc == Waiting(l)
    requires u < |ss[j].callers| && ss[j].callers[u].pc.Returned?
    ensures ss[j].callers[u].pc.answer == es[i].file
  {
    hide Inv, LoadAnswer;
    AfterWaiting(which, ss, es, m, j, u, l);
    ClosedWasRead(which, ss, es, j, l);
    var n: int, v: nat :| n < j && ReadsAt(ss, es, n, v, l) && es[n].file == LoadAnswer(which, ss[j].loads[l])
                && ss[n].callers[v].key == ss[j].loads[l].key;
    OneRead(which, ss, es, i, n, t, v, l);
  }
}
