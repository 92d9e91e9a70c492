/** loadListBinIndex and loadInfoIndex of listbin.go as a transition system: any number of concurrent
    callers, one step per statement that touches the shared maps, the lock, a load record or the file.
    The two loaders differ in two ways only. loadInfoIndex caches a failed read (as nil), and it has
    no ok flag: its callers return the load's map. */
module SingleFlight {
  import opened Wrappers

  type Key = string

  /** A parsed file, told apart by identity, as Go maps are; None is nil. */
  type Parsed = nat
  type Answer = Option<Parsed>

  datatype Loader = ListBin | Info

  /** listBinLoad and infoLoad. The owner, the caller that registered the load, is recorded for the proofs. */
  datatype Load = Load(key: Key, owner: nat, closed: bool, result: Answer, ok: bool)

  /** Where a caller stands. Between Checking and Registered, and between Storing and Leaving, it holds
      the write lock; at FastCheck and FastSeen it holds the read lock. */
  datatype Pc =
    | Called                                        // about to take the read lock
    | FastCheck                                     // looks the key up
    | FastSeen(seen: Option<Answer>)             // releases the read lock
    | Missed                                        // about to take the write lock
    | Checking                                      // looks the key up again, then the load in flight
    | Hit(value: Answer)                         // cached: unlocks and returns
    | Joining(load: nat)                            // in flight: unlocks and waits
    | Registering                                   // neither: makes a load and lists it
    | Registered(load: nat)                         // unlocks
    | Reading(load: nat)                            // reads and parses the file
    | Filling(load: nat, parsed: Parsed)                 // stores the parsed index in the load
    | Marking(load: nat, parsed: Parsed)                 // sets the load's ok flag
    | Publishing(load: nat, outcome: Answer)     // about to take the write lock
    | Storing(load: nat, outcome: Answer)        // writes the cache
    | Unlisting(load: nat, outcome: Answer)      // deletes the load in flight
    | Closing(load: nat, outcome: Answer)        // closes done
    | Leaving(outcome: Answer)                   // unlocks and returns
    | Waiting(load: nat)                            // blocked on done
    | Returned(answer: Answer)

  datatype Caller = Caller(key: Key, pc: Pc)

  /** Shared state. cacheWrites and fileReads count successful cache writes and file reads for each key. */
  datatype State = State(
    callers: seq<Caller>,
    cache: map<Key, Answer>,
    inflight: map<Key, nat>,
    loads: seq<Load>,
    writer: Option<nat>,
    readers: set<nat>,
    cacheWrites: multiset<Key>,
    fileReads: multiset<Key>)

  /** A new caller arrives, or caller t makes its next step; file is what reading the file gives, if it reads. */
  datatype Label = Arrive(key: Key) | Move(t: nat, file: Answer)

  function Init(): State {
    State([], map[], map[], [], None, {}, multiset{}, multiset{})
  }

  predicate CanMove(s: State, t: nat) {
    && t < |s.callers|
    && match s.callers[t].pc
       case Called => s.writer.None?
       case Missed => s.writer.None? && s.readers == {}
       case Publishing(_, _) => s.writer.None? && s.readers == {}
       case Waiting(l) => l < |s.loads| && s.loads[l].closed
       case Returned(_) => false
       case Filling(l, _) => l < |s.loads|
       case Marking(l, _) => l < |s.loads|
       case Closing(l, _) => l < |s.loads|
       case _ => true
  }

  /** What a joined caller returns. */
  function LoadAnswer(which: Loader, l: Load): Answer {
    match which
    case ListBin => if l.ok then l.result else None
    case Info => l.result
  }

  /** Where caller t stands after its next step. */
  function NextPc(which: Loader, s: State, t: nat, file: Answer): Pc
    requires CanMove(s, t)
  {
    var k := s.callers[t].key;
    match s.callers[t].pc
    case Called => FastCheck
    case FastCheck => FastSeen(if k in s.cache then Some(s.cache[k]) else None)
    case FastSeen(seen) => if seen.Some? then Returned(seen.value) else Missed
    case Missed => Checking
    case Checking =>
      if k in s.cache then Hit(s.cache[k])
      else if k in s.inflight then Joining(s.inflight[k])
      else Registering
    case Hit(v) => Returned(v)
    case Joining(l) => Waiting(l)
    case Registering => Registered(|s.loads|)
    case Registered(l) => Reading(l)
    case Reading(l) => if file.Some? then Filling(l, file.value) else Publishing(l, None)
    case Filling(l, v) => if which.ListBin? then Marking(l, v) else Publishing(l, Some(v))
    case Marking(l, v) => Publishing(l, Some(v))
    case Publishing(l, r) => Storing(l, r)
    case Storing(l, r) => Unlisting(l, r)
    case Unlisting(l, r) => Closing(l, r)
    case Closing(l, r) => Leaving(r)
    case Leaving(r) => Returned(r)
    case Waiting(l) => Returned(LoadAnswer(which, s.loads[l]))
  }

  predicate Unlocks(pc: Pc) {
    pc.Hit? || pc.Joining? || pc.Registered? || pc.Leaving?
  }

  /** loadListBinIndex caches successful reads, loadInfoIndex every outcome. */
  predicate Stores(which: Loader, pc: Pc) {
    pc.Storing? && (pc.outcome.Some? || which.Info?)
  }

  function WriterAfter(s: State, t: nat, pc: Pc): Option<nat> {
    if pc.Missed? || pc.Publishing? then Some(t) else if Unlocks(pc) then None else s.writer
  }

  function ReadersAfter(s: State, t: nat, pc: Pc): set<nat> {
    if pc.Called? then s.readers + {t} else if pc.FastSeen? then s.readers - {t} else s.readers
  }

  function CacheAfter(which: Loader, s: State, k: Key, pc: Pc): map<Key, Answer> {
    if Stores(which, pc) then s.cache[k := pc.outcome] else s.cache
  }

  function InflightAfter(s: State, k: Key, pc: Pc): map<Key, nat> {
    if pc.Registering? then s.inflight[k := |s.loads|] else if pc.Unlisting? then s.inflight - {k} else s.inflight
  }

  function LoadsAfter(s: State, t: nat, k: Key, pc: Pc): seq<Load> {
    if pc.Registering? then s.loads + [Load(k, t, false, None, false)]
    else if pc.Filling? && pc.load < |s.loads| then s.loads[pc.load := s.loads[pc.load].(result := Some(pc.parsed))]
    else if pc.Marking? && pc.load < |s.loads| then s.loads[pc.load := s.loads[pc.load].(ok := true)]
    else if pc.Closing? && pc.load < |s.loads| then s.loads[pc.load := s.loads[pc.load].(closed := true)]
    else s.loads
  }

  /** The step of caller t: control moves on, and the statement there changes the shared state. */
  function MoveOne(which: Loader, s: State, t: nat, file: Answer): State
    requires CanMove(s, t)
  {
    var k, pc := s.callers[t].key, s.callers[t].pc;
    State(
      s.callers[t := Caller(k, NextPc(which, s, t, file))],
      CacheAfter(which, s, k, pc),
      InflightAfter(s, k, pc),
      LoadsAfter(s, t, k, pc),
      WriterAfter(s, t, pc),
      ReadersAfter(s, t, pc),
      if Stores(which, pc) then s.cacheWrites + multiset{k} else s.cacheWrites,
      if pc.Reading? then s.fileReads + multiset{k} else s.fileReads)
  }

  predicate Enabled(s: State, e: Label) {
    e.Move? ==> CanMove(s, e.t)
  }

  function Step(which: Loader, s: State, e: Label): State
    requires Enabled(s, e)
  {
    match e
    case Arrive(k) => s.(callers := s.callers + [Caller(k, Called)])
    case Move(t, file) => MoveOne(which, s, t, file)
  }

  /** The states of a run: any interleaving of arrivals and moves, from the empty caches. */
  ghost predicate Run(which: Loader, ss: seq<State>, es: seq<Label>) {
    && |ss| == |es| + 1
    && ss[0] == Init()
    && forall i :: 0 <= i < |es| ==> Enabled(ss[i], es[i]) && ss[i + 1] == Step(which, ss[i], es[i])
  }

  // ---- Invariant ----

  predicate HoldsWrite(pc: Pc) {
    pc.Checking? || pc.Hit? || pc.Joining? || pc.Registering? || pc.Registered?
    || pc.Storing? || pc.Unlisting? || pc.Closing? || pc.Leaving?
  }

  predicate HoldsRead(pc: Pc) {
    pc.FastCheck? || pc.FastSeen?
  }

  /** The caller runs an open load: it registered it and has not closed it. */
  predicate Leads(pc: Pc, l: nat) {
    Listed(pc, l) || (pc.Closing? && pc.load == l)
  }

  /** The caller's load is listed in flight. */
  predicate Listed(pc: Pc, l: nat) {
    (pc.Registered? || pc.Reading? || pc.Filling? || pc.Marking? || pc.Publishing? || pc.Storing? || pc.Unlisting?)
    && pc.load == l
  }

  /** The leader has read the file. */
  predicate HasRead(pc: Pc) {
    pc.Filling? || pc.Marking? || pc.Publishing? || pc.Storing? || pc.Unlisting?
  }

  /** The lock: writers exclude each other and readers. */
  ghost predicate LockOk(s: State) {
    && (s.writer.Some? ==> s.writer.value < |s.callers| && s.readers == {})
    && (forall t :: t in s.readers ==> t < |s.callers|)
    && (forall t :: 0 <= t < |s.callers| ==>
          && (HoldsWrite(s.callers[t].pc) <==> s.writer == Some(t))
          && (HoldsRead(s.callers[t].pc) <==> t in s.readers))
  }

  /** An answer with a value, or any answer of loadInfoIndex, is the cached one. */
  ghost predicate IsCached(which: Loader, s: State, k: Key, r: Answer) {
    r.Some? || which.Info? ==> k in s.cache && s.cache[k] == r
  }

  ghost predicate Owned(s: State, t: nat, l: nat)
    requires t < |s.callers|
  {
    l < |s.loads| && s.loads[l].key == s.callers[t].key && s.loads[l].owner == t && !s.loads[l].closed
  }

  ghost predicate CallerOk(which: Loader, s: State, t: nat)
    requires t < |s.callers|
  {
    var k := s.callers[t].key;
    match s.callers[t].pc
    case Called => true
    case FastCheck => true
    case FastSeen(seen) => seen.Some? ==> k in s.cache && s.cache[k] == seen.value
    case Missed => true
    case Checking => true
    case Hit(v) => k in s.cache && s.cache[k] == v
    case Joining(l) => l < |s.loads| && s.loads[l].key == k
    case Registering => k !in s.cache && k !in s.inflight
    case Registered(l) => Owned(s, t, l) && InFlight(s, k, l) && k !in s.cache && s.loads[l].result == None && !s.loads[l].ok
    case Reading(l) => Owned(s, t, l) && InFlight(s, k, l) && k !in s.cache && s.loads[l].result == None && !s.loads[l].ok
    case Filling(l, v) => Owned(s, t, l) && InFlight(s, k, l) && k !in s.cache && s.loads[l].result == None && !s.loads[l].ok
    case Marking(l, v) => Owned(s, t, l) && InFlight(s, k, l) && k !in s.cache && s.loads[l].result == Some(v) && which.ListBin?
    case Publishing(l, r) => Owned(s, t, l) && InFlight(s, k, l) && k !in s.cache && LoadAnswer(which, s.loads[l]) == r
    case Storing(l, r) => Owned(s, t, l) && InFlight(s, k, l) && k !in s.cache && LoadAnswer(which, s.loads[l]) == r
    case Unlisting(l, r) => Owned(s, t, l) && InFlight(s, k, l) && IsCached(which, s, k, r) && LoadAnswer(which, s.loads[l]) == r
    case Closing(l, r) => Owned(s, t, l) && k !in s.inflight && IsCached(which, s, k, r) && LoadAnswer(which, s.loads[l]) == r
    case Leaving(r) => IsCached(which, s, k, r)
    case Waiting(l) => l < |s.loads| && s.loads[l].key == k
    case Returned(r) => IsCached(which, s, k, r)
  }

  predicate InFlight(s: State, k: Key, l: nat) {
    k in s.inflight && s.inflight[k] == l
  }

  /** An open load is run by its owner; a closed one tells what is cached. */
  ghost predicate LoadOk(which: Loader, s: State, l: nat)
    requires l < |s.loads|
  {
    var x := s.loads[l];
    if x.closed then IsCached(which, s, x.key, LoadAnswer(which, x))
    else x.owner < |s.callers| && s.callers[x.owner].key == x.key && Leads(s.callers[x.owner].pc, l)
  }

  ghost predicate KeyOk(which: Loader, s: State, k: Key) {
    && (k in s.inflight ==>
          var l := s.inflight[k];
          l < |s.loads| && s.loads[l].key == k && !s.loads[l].closed
          && s.loads[l].owner < |s.callers| && Listed(s.callers[s.loads[l].owner].pc, l))
    && s.cacheWrites[k] == (if k in s.cache then 1 else 0)
    && (which.ListBin? && k in s.cache ==> s.cache[k].Some?)
    && (which.Info? ==> s.fileReads[k] == (if k in s.cache || ReadInFlight(s, k) then 1 else 0))
  }

  ghost predicate ReadInFlight(s: State, k: Key) {
    && k in s.inflight && s.inflight[k] < |s.loads|
    && s.loads[s.inflight[k]].owner < |s.callers|
    && HasRead(s.callers[s.loads[s.inflight[k]].owner].pc)
  }

  ghost predicate Inv(which: Loader, s: State) {
    && LockOk(s)
    && (forall t :: 0 <= t < |s.callers| ==> CallerOk(which, s, t))
    && (forall l :: 0 <= l < |s.loads| ==> LoadOk(which, s, l))
    && (forall k :: KeyOk(which, s, k))
  }

  lemma InitInv(which: Loader)
    ensures Inv(which, Init())
  {
  }

  lemma ArriveInv(which: Loader, s: State, k: Key)
    requires Inv(which, s)
    ensures Inv(which, Step(which, s, Arrive(k)))
  {
    var s' := Step(which, s, Arrive(k));
    forall t | 0 <= t < |s'.callers| ensures CallerOk(which, s', t) {
      if t < |s.callers| {
        assert CallerOk(which, s, t);
      }
    }
    forall l | 0 <= l < |s'.loads| ensures LoadOk(which, s', l) {
      assert LoadOk(which, s, l);
    }
    forall k' ensures KeyOk(which, s', k') {
      assert KeyOk(which, s, k');
    }
  }

  lemma MoveLock(which: Loader, s: State, t: nat, file: Answer)
    requires LockOk(s) && CanMove(s, t)
    ensures LockOk(MoveOne(which, s, t, file))
  {
    hide CacheAfter, InflightAfter, LoadsAfter, Stores, LoadAnswer;
  }

  predicate LooksUp(pc: Pc) {
    pc.Called? || pc.FastCheck? || pc.FastSeen? || pc.Missed? || pc.Checking? || pc.Hit? || pc.Joining?
    || pc.Registering? || pc.Registered?
  }

  lemma MoverLooksUp(which: Loader, s: State, t: nat, file: Answer)
    requires Inv(which, s) && CanMove(s, t) && LooksUp(s.callers[t].pc)
    ensures CallerOk(which, MoveOne(which, s, t, file), t)
  {
    hide LockOk, LoadOk;
    assert CallerOk(which, s, t);
    assert KeyOk(which, s, s.callers[t].key);
  }

  predicate Publishes(pc: Pc) {
    pc.Publishing? || pc.Storing? || pc.Unlisting? || pc.Closing? || pc.Leaving?
  }

  lemma MoverReads(which: Loader, s: State, t: nat, file: Answer)
    requires Inv(which, s) && CanMove(s, t) && !LooksUp(s.callers[t].pc) && !Publishes(s.callers[t].pc)
    ensures CallerOk(which, MoveOne(which, s, t, file), t)
  {
    hide LockOk, KeyOk;
    assert CallerOk(which, s, t);
    if s.callers[t].pc.Waiting? {
      assert LoadOk(which, s, s.callers[t].pc.load);
    }
  }

  lemma MoverPublishes(which: Loader, s: State, t: nat, file: Answer)
    requires Inv(which, s) && CanMove(s, t) && Publishes(s.callers[t].pc)
    ensures CallerOk(which, MoveOne(which, s, t, file), t)
  {
    hide LockOk, KeyOk, LoadOk;
    assert CallerOk(which, s, t);
  }

  /** What a move of t leaves alone: other callers, other callers' loads, keys it does not lead. */
  ghost predicate Untouched(s: State, s': State, t: nat, u: nat)
    requires t < |s.callers| && u < |s.callers|
  {
    var k := s.callers[u].key;
    && |s'.callers| == |s.callers| && s'.callers[u] == s.callers[u]
    && |s.loads| <= |s'.loads|
    && (forall l :: 0 <= l < |s.loads| ==> s'.loads[l].key == s.loads[l].key)
    && (forall l :: 0 <= l < |s.loads| && s.loads[l].owner != t ==> s'.loads[l] == s.loads[l])
    && (k in s.cache ==> k in s'.cache && s'.cache[k] == s.cache[k])
    && (k in s'.cache && k !in s.cache ==> s.callers[t].key == k && s.callers[t].pc.Storing?)
    && (k in s.inflight && !InFlight(s', k, s.inflight[k]) ==> s.callers[t].key == k && s.callers[t].pc.Unlisting?)
    && (k in s'.inflight && k !in s.inflight ==> s.callers[t].key == k && s.callers[t].pc.Registering?)
  }

  lemma MoveUntouched(which: Loader, s: State, t: nat, file: Answer, u: nat)
    requires Inv(which, s) && CanMove(s, t) && u < |s.callers| && u != t
    ensures Untouched(s, MoveOne(which, s, t, file), t, u)
  {
    hide LockOk, KeyOk, LoadOk, IsCached;
    assert CallerOk(which, s, t);
  }

  /** Two callers never run loads of one key: both would be the listed one, or one would hold the lock. */
  lemma OneLeader(which: Loader, s: State, t: nat, u: nat, l: nat, m: nat)
    requires Inv(which, s) && t < |s.callers| && u < |s.callers|
    requires Leads(s.callers[t].pc, l) && Leads(s.callers[u].pc, m)
    requires s.callers[t].key == s.callers[u].key
    requires s.callers[u].pc.Closing? ==> s.callers[t].pc.Closing?
    ensures t == u
  {
    hide LoadOk, KeyOk, IsCached;
    assert CallerOk(which, s, t) && CallerOk(which, s, u);
  }

  lemma Bystander(which: Loader, s: State, t: nat, file: Answer, u: nat)
    requires Inv(which, s) && CanMove(s, t) && u < |s.callers| && u != t
    ensures CallerOk(which, MoveOne(which, s, t, file), u)
  {
    hide MoveOne, KeyOk, LoadOk;
    MoveUntouched(which, s, t, file, u);
    assert CallerOk(which, s, t) && CallerOk(which, s, u);
  }

  lemma MoveLoad(which: Loader, s: State, t: nat, file: Answer, l: nat)
    requires Inv(which, s) && CanMove(s, t) && l < |MoveOne(which, s, t, file).loads|
    ensures LoadOk(which, MoveOne(which, s, t, file), l)
  {
    hide LockOk, KeyOk;
    assert CallerOk(which, s, t);
    if l < |s.loads| {
      assert LoadOk(which, s, l);
    }
  }

  lemma MoveKey(which: Loader, s: State, t: nat, file: Answer, k: Key)
    requires Inv(which, s) && CanMove(s, t)
    ensures KeyOk(which, MoveOne(which, s, t, file), k)
  {
    hide LockOk, LoadOk, LoadAnswer;
    assert CallerOk(which, s, t);
    assert KeyOk(which, s, k);
  }

  lemma StepInv(which: Loader, s: State, e: Label)
    requires Inv(which, s) && Enabled(s, e)
    ensures Inv(which, Step(which, s, e))
  {
    hide CallerOk, LoadOk, KeyOk, LockOk, MoveOne;
    if e.Arrive? {
      ArriveInv(which, s, e.key);
    } else {
      var s' := Step(which, s, e);
      MoveLock(which, s, e.t, e.file);
      SameCallers(which, s, e.t, e.file);
      forall u | 0 <= u < |s'.callers| ensures CallerOk(which, s', u) {
        if u == e.t {
          if LooksUp(s.callers[u].pc) {
            MoverLooksUp(which, s, u, e.file);
          } else if Publishes(s.callers[u].pc) {
            MoverPublishes(which, s, u, e.file);
          } else {
            MoverReads(which, s, u, e.file);
          }
        } else {
          Bystander(which, s, e.t, e.file, u);
        }
      }
      forall l | 0 <= l < |s'.loads| ensures LoadOk(which, s', l) {
        MoveLoad(which, s, e.t, e.file, l);
      }
      forall k ensures KeyOk(which, s', k) {
        MoveKey(which, s, e.t, e.file, k);
      }
    }
  }

  lemma SameCallers(which: Loader, s: State, t: nat, file: Answer)
    requires CanMove(s, t)
    ensures |MoveOne(which, s, t, file).callers| == |s.callers|
  {
  }

  // ---- Safety of every run ----

  lemma {:induction false} RunInv(which: Loader, ss: seq<State>, es: seq<Label>, i: nat)
    requires Run(which, ss, es) && i < |ss|
    ensures Inv(which, ss[i])
  {
    hide Inv, Step, Enabled;
    if i == 0 {
      InitInv(which);
    } else {
      RunInv(which, ss, es, i - 1);
      assert ss[i - 1 + 1] == Step(which, ss[i - 1], es[i - 1]);
      StepInv(which, ss[i - 1], es[i - 1]);
    }
  }

  /** No two callers lead loads of one key at the same time. */
  lemma AtMostOneLeader(which: Loader, ss: seq<State>, es: seq<Label>, i: nat, t: nat, u: nat, l: nat, m: nat)
    requires Run(which, ss, es) && i < |ss| && t < |ss[i].callers| && u < |ss[i].callers|
    requires ss[i].callers[t].key == ss[i].callers[u].key
    requires Leads(ss[i].callers[t].pc, l) && Leads(ss[i].callers[u].pc, m)
    ensures t == u && l == m
  {
    RunInv(which, ss, es, i);
    if ss[i].callers[u].pc.Closing? && !ss[i].callers[t].pc.Closing? {
      OneLeader(which, ss[i], u, t, m, l);
    } else {
      OneLeader(which, ss[i], t, u, l, m);
    }
  }

  /** A key is published at most once; loadInfoIndex also reads a key's file at most once. */
  lemma PublishedOnce(which: Loader, ss: seq<State>, es: seq<Label>, i: nat, k: Key)
    requires Run(which, ss, es) && i < |ss|
    ensures ss[i].cacheWrites[k] <= 1
    ensures which.Info? ==> ss[i].fileReads[k] <= 1
  {
    RunInv(which, ss, es, i);
    assert KeyOk(which, ss[i], k);
  }

  lemma StepKeepsCache(which: Loader, s: State, e: Label, k: Key)
    requires Inv(which, s) && Enabled(s, e) && k in s.cache
    ensures k in Step(which, s, e).cache && Step(which, s, e).cache[k] == s.cache[k]
  {
    hide LockOk, LoadOk, KeyOk;
    if e.Move? {
      assert CallerOk(which, s, e.t);
    }
  }

  /** What is cached stays cached, unchanged, for the rest of the run. */
  lemma {:induction false} CacheIsFinal(which: Loader, ss: seq<State>, es: seq<Label>, i: nat, j: nat, k: Key)
    requires Run(which, ss, es) && i <= j < |ss| && k in ss[i].cache
    ensures k in ss[j].cache && ss[j].cache[k] == ss[i].cache[k]
    decreases j
  {
    hide Inv, Step, Enabled;
    if i < j {
      CacheIsFinal(which, ss, es, i, j - 1, k);
      RunInv(which, ss, es, j - 1);
      assert ss[j - 1 + 1] == Step(which, ss[j - 1], es[j - 1]);
      StepKeepsCache(which, ss[j - 1], es[j - 1], k);
    }
  }

  /** All callers of a key that return a parsed file return the same one, whenever they return and
      whether they found it cached, joined its load or led it. loadInfoIndex's callers agree on nil, too. */
  lemma AnswersAgree(which: Loader, ss: seq<State>, es: seq<Label>, i: nat, j: nat, t: nat, u: nat)
    requires Run(which, ss, es) && i <= j < |ss| && t < |ss[i].callers| && u < |ss[j].callers|
    requires ss[i].callers[t].key == ss[j].callers[u].key
    requires ss[i].callers[t].pc.Returned? && ss[j].callers[u].pc.Returned?
    ensures var a, b := ss[i].callers[t].pc.answer, ss[j].callers[u].pc.answer;
            which.Info? || (a.Some? && b.Some?) ==> a == b
    ensures ss[j].callers[u].pc.answer.Some? ==>
              ss[j].callers[u].key in ss[j].cache && ss[j].cache[ss[j].callers[u].key] == ss[j].callers[u].pc.answer
  {
    RunInv(which, ss, es, i);
    RunInv(which, ss, es, j);
    assert CallerOk(which, ss[i], t) && CallerOk(which, ss[j], u);
    var k := ss[i].callers[t].key;
    if k in ss[i].cache {
      CacheIsFinal(which, ss, es, i, j, k);
    }
  }

  /** Whoever waits, waits for a load that is closed or that its owner still runs. */
  lemma WaitersHaveLeaders(which: Loader, ss: seq<State>, es: seq<Label>, i: nat, t: nat)
    requires Run(which, ss, es) && i < |ss| && t < |ss[i].callers| && ss[i].callers[t].pc.Waiting?
    ensures var l := ss[i].callers[t].pc.load;
            l < |ss[i].loads| &&
            (ss[i].loads[l].closed
             || (ss[i].loads[l].owner < |ss[i].callers| && Leads(ss[i].callers[ss[i].loads[l].owner].pc, l)))
  {
    RunInv(which, ss, es, i);
    assert CallerOk(which, ss[i], t);
    assert LoadOk(which, ss[i], ss[i].callers[t].pc.load);
  }

  // ---- Nobody waits forever ----

  /** As long as a caller has not returned, some caller can move. */
  lemma NoDeadlock(which: Loader, s: State, t: nat)
    requires Inv(which, s) && t < |s.callers| && !s.callers[t].pc.Returned?
    ensures exists u :: CanMove(s, u)
  {
    hide KeyOk;
    assert CallerOk(which, s, t);
    if s.writer.Some? {
      assert CallerOk(which, s, s.writer.value);
      assert CanMove(s, s.writer.value);
    } else if s.readers != {} {
      var r :| r in s.readers;
      assert CanMove(s, r);
    } else if s.callers[t].pc.Waiting? && !s.loads[s.callers[t].pc.load].closed {
      var l := s.callers[t].pc.load;
      assert LoadOk(which, s, l);
      var u := s.loads[l].owner;
      assert CallerOk(which, s, u);
      assert CanMove(s, u);
    } else {
      assert CanMove(s, t);
    }
  }

  /** Steps a caller has left, at most. */
  function Left(pc: Pc): nat {
    match pc
    case Called => 15
    case FastCheck => 14
    case FastSeen(_) => 13
    case Missed => 12
    case Checking => 11
    case Registering => 10
    case Registered(_) => 9
    case Reading(_) => 8
    case Filling(_, _) => 7
    case Marking(_, _) => 6
    case Publishing(_, _) => 5
    case Storing(_, _) => 4
    case Unlisting(_, _) => 3
    case Closing(_, _) => 2
    case Hit(_) => 1
    case Joining(_) => 2
    case Leaving(_) => 1
    case Waiting(_) => 1
    case Returned(_) => 0
  }

  function TotalLeft(cs: seq<Caller>): nat {
    if cs == [] then 0 else Left(cs[0].pc) + TotalLeft(cs[1..])
  }

  lemma {:induction false} TotalLeftUpdate(cs: seq<Caller>, t: nat, c: Caller)
    requires t < |cs|
    ensures TotalLeft(cs[t := c]) == TotalLeft(cs) - Left(cs[t].pc) + Left(c.pc)
  {
    hide Left;
    if t == 0 {
      assert cs[t := c][1..] == cs[1..];
    } else {
      assert cs[t := c][1..] == cs[1..][t - 1 := c];
      TotalLeftUpdate(cs[1..], t - 1, c);
    }
  }

  lemma MoveCounts(which: Loader, s: State, t: nat, file: Answer)
    requires CanMove(s, t)
    ensures TotalLeft(MoveOne(which, s, t, file).callers) < TotalLeft(s.callers)
  {
    var k := s.callers[t].key;
    TotalLeftUpdate(s.callers, t, Caller(k, NextPc(which, s, t, file)));
  }

  /** Between arrivals only finitely many moves happen: at most the sum of the steps left. */
  lemma {:induction false} MovesAreBounded(which: Loader, ss: seq<State>, es: seq<Label>, i: nat, j: nat)
    requires Run(which, ss, es) && i <= j < |ss|
    requires forall n :: i <= n < j ==> es[n].Move?
    ensures j - i <= TotalLeft(ss[i].callers) - TotalLeft(ss[j].callers)
    decreases j
  {
    hide MoveOne, CanMove, TotalLeft;
    if i < j {
      MovesAreBounded(which, ss, es, i, j - 1);
      assert ss[j - 1 + 1] == Step(which, ss[j - 1], es[j - 1]);
      MoveCounts(which, ss[j - 1], es[j - 1].t, es[j - 1].file);
    }
  }

  /** So once arrivals stop, moving as long as anyone can move takes at most TotalLeft steps, and then
      everyone has returned. */
  lemma EveryoneReturns(which: Loader, ss: seq<State>, es: seq<Label>, i: nat)
    requires Run(which, ss, es) && i < |ss|
    requires forall n :: i <= n < |es| ==> es[n].Move?
    ensures |es| - i <= TotalLeft(ss[i].callers)
    ensures (forall u :: !CanMove(ss[|es|], u)) ==>
              forall t :: 0 <= t < |ss[|es|].callers| ==> ss[|es|].callers[t].pc.Returned?
  {
    hide MoveOne, CanMove, TotalLeft, Inv;
    MovesAreBounded(which, ss, es, i, |es|);
    RunInv(which, ss, es, |es|);
    var s := ss[|es|];
    forall t | 0 <= t < |s.callers| && !s.callers[t].pc.Returned? ensures exists u :: CanMove(s, u) {
      NoDeadlock(which, s, t);
    }
  }
}
