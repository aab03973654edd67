// internal/configsvc/service.go: the cached configuration file with optimistic
// revisions, one instruction of one call at a time, for any number of calls.
module ConfigService {
  import opened Wrappers
  import Decimal
  import Text

  // Settings by dotted path; what is in them does not matter here.
  type Config = map<string, string>

  // config.Load and yaml.Marshal.
  datatype World = World(load: string -> Option<Config>, marshal: Config -> Option<string>)

  // A content of the file with its modification time.
  datatype Version = Version(text: string, mtime: nat)

  datatype Stamp = Stamp(mtime: nat, size: nat)

  function StampOf(v: Version): Stamp { Stamp(v.mtime, |v.text|) }

  // fileRevision
  function Revision(v: Version): string {
    Decimal.Print(v.mtime) + [':'] + Decimal.Print(|v.text|)
  }

  // The time and the size in decimal.
  lemma RevisionText(text: string, mtime: nat)
    ensures Revision(Version(text, mtime)) == Decimal.Print(mtime) + ":" + Decimal.Print(|text|)
  {
  }

  // No two stamps print the same.
  lemma RevisionInjective(v: Version, u: Version)
    ensures Revision(v) == Revision(u) <==> StampOf(v) == StampOf(u)
  {
    var m, n, k, l := Decimal.Print(v.mtime), Decimal.Print(u.mtime), Decimal.Print(|v.text|), Decimal.Print(|u.text|);
    Decimal.PrintIsNumeral(v.mtime);
    Decimal.PrintIsNumeral(u.mtime);
    Text.IndexAfter(m, ':', k);
    Text.IndexAfter(n, ':', l);
    if Revision(v) == Revision(u) {
      assert m == Revision(v)[..|m|] && n == Revision(u)[..|n|];
      assert k == Revision(v)[|m| + 1..] && l == Revision(u)[|n| + 1..];
      Decimal.PrintInjective(v.mtime, u.mtime);
      Decimal.PrintInjective(|v.text|, |u.text|);
    }
  }

  datatype Snapshot = Snapshot(config: Config, revision: string)

  // cachedSnapshot; no stamp stands for the zero time of a failed stat, which no file
  // has. `origin` is the version it was read from, kept for the proofs.
  datatype Cache = Cache(snap: Snapshot, stamp: Option<Stamp>, origin: nat)

  // StatFailed is a failed read of the revision before the write, Unconfirmed one after it.
  datatype Failure = LoadFailed | StatFailed | Conflict | MutateFailed | MarshalFailed | WriteFailed | Unconfirmed

  datatype Request = Request(expected: string, mutate: Config -> Option<Config>)

  // Where a call is. `begin` and `end` are the numbers of the file's current version
  // when the call starts and returns, `at` the one it answers with.
  datatype Call =
    | ReadEnter(begin: nat)
    | ReadCopy(begin: nat)
    | ReadLeave(begin: nat, seen: Option<Cache>)
    | ReadStat(begin: nat, seen: Option<Cache>)
    | ReadLock(begin: nat)
    | ReadAgain(begin: nat)
    | ReadLoad(begin: nat)
    | ReadRevision(begin: nat, config: Config)
    | ReadStore(begin: nat, config: Config, revision: string)
    | ReadUnlock(begin: nat, answer: Result<Snapshot, Failure>)
    | ReadReturn(begin: nat, at: nat, answer: Result<Snapshot, Failure>)
    | ReadDone(begin: nat, at: nat, end: nat, answer: Result<Snapshot, Failure>)
    | UpdateLock(req: Request)
    | UpdateLoad(req: Request)
    | UpdateCheck(req: Request, config: Config)
    | UpdateMutate(req: Request, config: Config)
    | UpdateWrite(req: Request, text: string)
    | UpdateRevision(req: Request)
    | UpdateForget(req: Request, revision: string)
    | UpdateUnlock(req: Request, result: Result<string, Failure>)
    | UpdateDone(req: Request, end: nat, result: Result<string, Failure>)

  // Who wrote a version, and for which request.
  datatype Write = Write(call: nat, req: Request)

  // versions[0] is the file at the start, versions[k + 1] what writes[k] made of
  // versions[k]; the last one is in the file now.
  datatype State = State(versions: seq<Version>, writes: seq<Write>, cache: Option<Cache>,
                         writer: Option<nat>, readers: set<nat>, calls: map<nat, Call>)

  function Now(s: State): nat
    requires s.versions != []
  {
    |s.versions| - 1
  }

  // What an instruction may run into: a cache younger than five seconds or not, a
  // failure of the file system, and the time of a write.
  datatype Luck = Luck(young: bool, fails: bool, time: nat)

  datatype Action = BeginRead(call: nat) | BeginUpdate(call: nat, req: Request) | Move(call: nat, luck: Luck)

  predicate Waiting(c: Call) { c.ReadEnter? || c.ReadLock? || c.UpdateLock? }

  predicate Returned(c: Call) { c.ReadDone? || c.UpdateDone? }

  predicate HoldsRead(c: Call) { c.ReadCopy? || c.ReadLeave? }

  predicate HoldsLock(c: Call) {
    || c.ReadAgain? || c.ReadLoad? || c.ReadRevision? || c.ReadStore? || c.ReadUnlock?
    || c.UpdateLoad? || c.UpdateCheck? || c.UpdateMutate? || c.UpdateWrite? || c.UpdateRevision?
    || c.UpdateForget? || c.UpdateUnlock?
  }

  // A write gets a stamp that no version had before.
  predicate FreshStamp(versions: seq<Version>, v: Version) {
    forall k :: 0 <= k < |versions| ==> StampOf(versions[k]) != StampOf(v)
  }

  predicate Enabled(s: State, a: Action) {
    match a
    case BeginRead(t) => t !in s.calls
    case BeginUpdate(t, _) => t !in s.calls
    case Move(t, luck) =>
      && t in s.calls && !Returned(s.calls[t])
      && match s.calls[t]
         case ReadEnter(_) => s.writer.None?
         case ReadLock(_) => s.writer.None? && s.readers == {}
         case UpdateLock(_) => s.writer.None? && s.readers == {}
         case UpdateWrite(_, text) => luck.fails || FreshStamp(s.versions, Version(text, luck.time))
         case _ => true
  }

  // ------------------------------------------------------------------
  // The instructions
  // ------------------------------------------------------------------

  // The cache is young and the file still has its stamp.
  predicate Valid(file: Version, c: Option<Cache>, luck: Luck) {
    c.Some? && luck.young && !luck.fails && c.value.stamp == Some(StampOf(file))
  }

  // What an instruction of a call leaves: where the call is then, the cache, and the
  // versions of the file.
  datatype Outcome = Outcome(call: Call, cache: Option<Cache>, versions: seq<Version>)

  function Next(w: World, versions: seq<Version>, cache: Option<Cache>, c: Call, luck: Luck): (e: Outcome)
    requires versions != []
    ensures versions <= e.versions
  {
    if c.UpdateWrite? && !luck.fails then
      Outcome(UpdateRevision(c.req), cache, versions + [Version(c.text, luck.time)])
    else
      var now, file := |versions| - 1, versions[|versions| - 1];
      var c' := if IsRead(c) then NextRead(w, now, file, cache, c, luck) else NextUpdate(w, now, file, c, luck);
      Outcome(c', NextCache(now, file, cache, c, luck), versions)
  }

  // The assignments to the cache, at the end of a Read from disk and of an update.
  function NextCache(now: nat, file: Version, cache: Option<Cache>, c: Call, luck: Luck): Option<Cache> {
    match c
    case ReadStore(_, config, revision) =>
      Some(Cache(Snapshot(config, revision), if luck.fails then None else Some(StampOf(file)), now))
    case UpdateForget(_, _) => None
    case _ => cache
  }

  // Read
  function NextRead(w: World, now: nat, file: Version, cache: Option<Cache>, c: Call, luck: Luck): Call {
    match c
    case ReadEnter(b) => ReadCopy(b)
    case ReadCopy(b) => ReadLeave(b, cache)
    case ReadLeave(b, seen) => ReadStat(b, seen)
    case ReadStat(b, seen) => if Valid(file, seen, luck) then ReadReturn(b, now, Ok(seen.value.snap)) else ReadLock(b)
    case ReadLock(b) => ReadAgain(b)
    case ReadAgain(b) => if Valid(file, cache, luck) then ReadUnlock(b, Ok(cache.value.snap)) else ReadLoad(b)
    case ReadLoad(b) =>
      if luck.fails || w.load(file.text).None? then ReadUnlock(b, Err(LoadFailed))
      else ReadRevision(b, w.load(file.text).value)
    case ReadRevision(b, config) =>
      if luck.fails then ReadUnlock(b, Err(StatFailed)) else ReadStore(b, config, Revision(file))
    case ReadStore(b, config, revision) => ReadUnlock(b, Ok(Snapshot(config, revision)))
    case ReadUnlock(b, answer) => ReadReturn(b, now, answer)
    case ReadReturn(b, at, answer) => ReadDone(b, at, now, answer)
    case _ => c
  }

  // UpdateWithRevision; when the revision cannot be read after the write, the write
  // stands, the cache stays and the caller is told of an error.
  function NextUpdate(w: World, now: nat, file: Version, c: Call, luck: Luck): Call {
    match c
    case UpdateLock(req) => UpdateLoad(req)
    case UpdateLoad(req) =>
      if luck.fails || w.load(file.text).None? then UpdateUnlock(req, Err(LoadFailed))
      else UpdateCheck(req, w.load(file.text).value)
    case UpdateCheck(req, config) =>
      if req.expected == "" then UpdateMutate(req, config)
      else if luck.fails then UpdateUnlock(req, Err(StatFailed))
      else if Revision(file) != req.expected then UpdateUnlock(req, Err(Conflict))
      else UpdateMutate(req, config)
    case UpdateMutate(req, config) =>
      var edited := req.mutate(config);
      if edited.None? then UpdateUnlock(req, Err(MutateFailed))
      else
        var text := w.marshal(edited.value);
        if text.None? then UpdateUnlock(req, Err(MarshalFailed)) else UpdateWrite(req, text.value)
    case UpdateWrite(req, text) => UpdateUnlock(req, Err(WriteFailed))
    case UpdateRevision(req) =>
      if luck.fails then UpdateUnlock(req, Err(Unconfirmed)) else UpdateForget(req, Revision(file))
    case UpdateForget(req, revision) => UpdateUnlock(req, Ok(revision))
    case UpdateUnlock(req, result) => UpdateDone(req, now, result)
    case _ => c
  }

  predicate IsRead(c: Call) {
    || c.ReadEnter? || c.ReadCopy? || c.ReadLeave? || c.ReadStat? || c.ReadLock? || c.ReadAgain?
    || c.ReadLoad? || c.ReadRevision? || c.ReadStore? || c.ReadUnlock? || c.ReadReturn? || c.ReadDone?
  }

  // The locks follow from where the calls are: a call takes one by moving to a place
  // where it is held, and gives it back by leaving the last such place.
  function MoveCall(w: World, s: State, t: nat, luck: Luck): State
    requires s.versions != [] && t in s.calls
  {
    var c := s.calls[t];
    var e := Next(w, s.versions, s.cache, c, luck);
    State(e.versions, if c.UpdateWrite? && !luck.fails then s.writes + [Write(t, c.req)] else s.writes, e.cache,
          if HoldsLock(e.call) then Some(t) else if HoldsLock(c) then None else s.writer,
          if HoldsRead(e.call) then s.readers + {t} else s.readers - {t},
          s.calls[t := e.call])
  }

  function Step(w: World, s: State, a: Action): State
    requires s.versions != [] && Enabled(s, a)
  {
    match a
    case BeginRead(t) => s.(calls := s.calls[t := ReadEnter(Now(s))])
    case BeginUpdate(t, req) => s.(calls := s.calls[t := UpdateLock(req)])
    case Move(t, luck) => MoveCall(w, s, t, luck)
  }

  // ------------------------------------------------------------------
  // The methods, against the instructions
  // ------------------------------------------------------------------

  // h is what the instructions of one call leave, from h(0) on, with nothing in between;
  // luck(i) is what the one numbered i runs into.
  ghost predicate Alone(w: World, h: nat -> Outcome, luck: nat -> Luck) {
    forall i: nat :: Does(w, h, luck, i)
  }

  ghost predicate Does(w: World, h: nat -> Outcome, luck: nat -> Luck, i: nat) {
    h(i).versions != [] && h(i + 1) == Next(w, h(i).versions, h(i).cache, h(i).call, luck(i))
  }

  function Nth(w: World, o: Outcome, luck: nat -> Luck, n: nat): (e: Outcome)
    requires o.versions != []
    ensures e.versions != []
  {
    if n == 0 then o
    else
      var m := Nth(w, o, luck, n - 1);
      Next(w, m.versions, m.cache, m.call, luck(n - 1))
  }

  // A call from o on, with nothing in between, comes to leave e.
  ghost predicate Arrives(w: World, o: Outcome, luck: nat -> Luck, e: Outcome)
    requires o.versions != []
  {
    exists n: nat :: Nth(w, o, luck, n) == e
  }

  // The course of such a call.
  lemma Course(w: World, o: Outcome, luck: nat -> Luck) returns (h: nat -> Outcome)
    requires o.versions != []
    ensures Alone(w, h, luck) && h(0) == o
    ensures forall e :: Reaches(h, e) <==> Arrives(w, o, luck, e)
  {
    h := (n: nat) => Nth(w, o, luck, n);
    forall e | Reaches(h, e) ensures Arrives(w, o, luck, e) {
      var n: nat :| h(n) == e;
      assert Nth(w, o, luck, n) == e;
    }
    forall e | Arrives(w, o, luck, e) ensures Reaches(h, e) {
      var n: nat :| Nth(w, o, luck, n) == e;
      assert h(n) == e;
    }
    forall i: nat ensures Does(w, h, luck, i) {
      assert h(i) == Nth(w, o, luck, i) && h(i + 1) == Nth(w, o, luck, i + 1);
    }
  }

  ghost predicate Reaches(h: nat -> Outcome, e: Outcome) { exists n: nat :: h(n) == e }

  // What Read finds on disk, and what an update means to write.
  function Loaded(w: World, file: Version, luck: nat -> Luck): Result<Snapshot, Failure> {
    if luck(6).fails || w.load(file.text).None? then Err(LoadFailed)
    else if luck(7).fails then Err(StatFailed)
    else Ok(Snapshot(w.load(file.text).value, Revision(file)))
  }

  function Edited(w: World, file: Version, req: Request, luck: nat -> Luck): Result<string, Failure> {
    if luck(1).fails || w.load(file.text).None? then Err(LoadFailed)
    else if req.expected != "" && luck(2).fails then Err(StatFailed)
    else if req.expected != "" && Revision(file) != req.expected then Err(Conflict)
    else
      var edited := req.mutate(w.load(file.text).value);
      if edited.None? then Err(MutateFailed)
      else if w.marshal(edited.value).None? then Err(MarshalFailed)
      else Ok(w.marshal(edited.value).value)
  }

  // What the calls leave in the end.
  function ReadOutcome(w: World, cache: Option<Cache>, versions: seq<Version>, luck: nat -> Luck): Outcome
    requires versions != []
  {
    var now, file := |versions| - 1, versions[|versions| - 1];
    if Valid(file, cache, luck(3)) || Valid(file, cache, luck(5)) then
      Outcome(ReadDone(now, now, now, Ok(cache.value.snap)), cache, versions)
    else
      match Loaded(w, file, luck)
      case Err(e) => Outcome(ReadDone(now, now, now, Err(e)), cache, versions)
      case Ok(snap) =>
        var stamp := if luck(8).fails then None else Some(StampOf(file));
        Outcome(ReadDone(now, now, now, Ok(snap)), Some(Cache(snap, stamp, now)), versions)
  }

  function UpdateOutcome(w: World, req: Request, cache: Option<Cache>, versions: seq<Version>,
                         luck: nat -> Luck): Outcome
    requires versions != []
  {
    var now := |versions| - 1;
    match Edited(w, versions[now], req, luck)
    case Err(e) => Outcome(UpdateDone(req, now, Err(e)), cache, versions)
    case Ok(text) =>
      var v := Version(text, luck(4).time);
      if luck(4).fails then Outcome(UpdateDone(req, now, Err(WriteFailed)), cache, versions)
      else if luck(5).fails then Outcome(UpdateDone(req, now + 1, Err(Unconfirmed)), cache, versions + [v])
      else Outcome(UpdateDone(req, now + 1, Ok(Revision(v))), None, versions + [v])
  }

  // The service and its file. The methods are the bodies of the calls: from its start to
  // its return each does the instructions of the model, one after the other.
  class Service {
    const w: World
    var cache: Option<Cache>
    var versions: seq<Version>

    // Instructions: 0 lock for reading, 1 copy, 2 unlock, 3 stat, 4 lock, 5 stat,
    // 6 load, 7 revision, 8 stat and store, 9 unlock, 10 return.
    method Read(luck: nat -> Luck) returns (answer: Result<Snapshot, Failure>)
      requires versions != []
      modifies this`cache
      ensures var now := |versions| - 1;
              Arrives(w, Outcome(ReadEnter(now), old(cache), versions), luck,
                      Outcome(ReadDone(now, now, now, answer), cache, versions))
    {
      ReadArrives(w, cache, versions, luck);
      var file := versions[|versions| - 1];
      var seen := cache;
      if seen.Some? && luck(3).young {
        if !luck(3).fails && seen.value.stamp == Some(StampOf(file)) {
          return Ok(seen.value.snap);
        }
      }
      if cache.Some? && luck(5).young {
        if !luck(5).fails && cache.value.stamp == Some(StampOf(file)) {
          return Ok(cache.value.snap);
        }
      }
      var config := if luck(6).fails then None else w.load(file.text);
      if config.None? {
        return Err(LoadFailed);
      }
      if luck(7).fails {
        return Err(StatFailed);
      }
      var stamp := None;
      if !luck(8).fails {
        stamp := Some(StampOf(file));
      }
      var snap := Snapshot(config.value, Revision(file));
      cache := Some(Cache(snap, stamp, |versions| - 1));
      return Ok(snap);
    }

    // Instructions: 0 lock, 1 load, 2 revision, 3 mutate and marshal, 4 write,
    // 5 revision, 6 forget the cache, 7 unlock.
    method UpdateWithRevision(req: Request, luck: nat -> Luck) returns (result: Result<string, Failure>)
      requires versions != []
      modifies this`cache, this`versions
      ensures versions != []
      ensures Arrives(w, Outcome(UpdateLock(req), old(cache), old(versions)), luck,
                      Outcome(UpdateDone(req, |versions| - 1, result), cache, versions))
      ensures var file := old(versions)[|old(versions)| - 1];
              var config := w.load(file.text);
              (forall i :: !luck(i).fails) && config.Some? && (req.expected == "" || req.expected == Revision(file)) ==>
                var edited := req.mutate(config.value);
                edited.Some? && w.marshal(edited.value).Some? ==>
                  var v := Version(w.marshal(edited.value).value, luck(4).time);
                  result == Ok(Revision(v)) && versions == old(versions) + [v] && cache == None
    {
      UpdateArrives(w, req, cache, versions, luck);
      var file := versions[|versions| - 1];
      var config := if luck(1).fails then None else w.load(file.text);
      if config.None? {
        return Err(LoadFailed);
      }
      if req.expected != "" {
        if luck(2).fails {
          return Err(StatFailed);
        }
        if Revision(file) != req.expected {
          return Err(Conflict);
        }
      }
      var edited := req.mutate(config.value);
      if edited.None? {
        return Err(MutateFailed);
      }
      var text := w.marshal(edited.value);
      if text.None? {
        return Err(MarshalFailed);
      }
      if luck(4).fails {
        return Err(WriteFailed);
      }
      versions := versions + [Version(text.value, luck(4).time)];
      if luck(5).fails {
        return Err(Unconfirmed);
      }
      result := Ok(Revision(versions[|versions| - 1]));
      cache := None;
    }
  }

  // ------------------------------------------------------------------
  // What a call with nothing in between returns
  // ------------------------------------------------------------------

  lemma {:induction false} Stays(w: World, h: nat -> Outcome, luck: nat -> Luck, n: nat, m: nat)
    requires Alone(w, h, luck) && n <= m && Returned(h(n).call)
    ensures h(m) == h(n)
    decreases m
  {
    if n < m {
      Stays(w, h, luck, n, m - 1);
      assert Does(w, h, luck, m - 1);
    }
  }

  // It returns once.
  lemma ReturnsOnce(w: World, o: Outcome, luck: nat -> Luck, d: Outcome, e: Outcome)
    requires o.versions != [] && Arrives(w, o, luck, d) && Arrives(w, o, luck, e)
    requires Returned(d.call) && Returned(e.call)
    ensures d == e
  {
    var h := Course(w, o, luck);
    assert Reaches(h, d) && Reaches(h, e);
    var n: nat :| h(n) == d;
    var m: nat :| h(m) == e;
    if n <= m {
      Stays(w, h, luck, n, m);
    } else {
      Stays(w, h, luck, m, n);
    }
  }

  // An update that meets no failure, unguarded or guarded by the revision the file has,
  // writes what its mutation makes of the file.
  lemma UpdateSucceeds(w: World, req: Request, cache: Option<Cache>, before: seq<Version>, file: Version,
                       luck: nat -> Luck, config: Config, edited: Config, text: string)
    requires forall i :: !luck(i).fails
    requires w.load(file.text) == Some(config) && (req.expected == "" || req.expected == Revision(file))
    requires req.mutate(config) == Some(edited) && w.marshal(edited) == Some(text)
    ensures var v := Version(text, luck(4).time);
            Arrives(w, Outcome(UpdateLock(req), cache, before + [file]), luck,
                    Outcome(UpdateDone(req, |before| + 1, Ok(Revision(v))), None, before + [file] + [v]))
  {
    UpdateArrives(w, req, cache, before + [file], luck);
  }

  // Every other update writes nothing, unless it is the revision after the write that
  // cannot be read; each error is told from the others.
  lemma UpdateFails(w: World, req: Request, cache: Option<Cache>, before: seq<Version>, file: Version,
                    luck: nat -> Luck)
    returns (e: Outcome, result: Result<string, Failure>)
    ensures Arrives(w, Outcome(UpdateLock(req), cache, before + [file]), luck, e)
    ensures e.call == UpdateDone(req, |e.versions| - 1, result)
    ensures result.Err? ==> e.cache == cache
    ensures result.Err? && result != Err(Unconfirmed) ==> e.versions == before + [file]
    ensures result == Err(LoadFailed) <==> luck(1).fails || w.load(file.text).None?
    ensures !luck(1).fails && w.load(file.text).Some? ==>
              var edited := req.mutate(w.load(file.text).value);
              && (result == Err(StatFailed) <==> req.expected != "" && luck(2).fails)
              && (result == Err(Conflict) <==>
                    req.expected != "" && !luck(2).fails && req.expected != Revision(file))
              && (req.expected == "" || (!luck(2).fails && req.expected == Revision(file)) ==>
                    && (result == Err(MutateFailed) <==> edited.None?)
                    && (result == Err(MarshalFailed) <==> edited.Some? && w.marshal(edited.value).None?)
                    && (edited.Some? && w.marshal(edited.value).Some? ==>
                          && (result == Err(WriteFailed) <==> luck(4).fails)
                          && (result == Err(Unconfirmed) <==> !luck(4).fails && luck(5).fails)))
  {
    UpdateArrives(w, req, cache, before + [file], luck);
    e := UpdateOutcome(w, req, cache, before + [file], luck);
    result := e.call.result;
  }

  // Whatever is in the cache, a Read that meets no failure answers with what the file
  // holds: a snapshot in the cache is used only while the file has its stamp.
  lemma ReadSucceeds(w: World, cache: Option<Cache>, versions: seq<Version>, luck: nat -> Luck, config: Config)
    returns (after: Option<Cache>)
    requires forall i :: !luck(i).fails
    requires versions != [] && w.load(versions[|versions| - 1].text) == Some(config)
    requires CacheOk(w, versions, cache)
    requires forall k, l :: 0 <= k < l < |versions| ==> StampOf(versions[k]) != StampOf(versions[l])
    ensures var now := |versions| - 1;
            Arrives(w, Outcome(ReadEnter(now), cache, versions), luck,
                    Outcome(ReadDone(now, now, now, Ok(Snapshot(config, Revision(versions[now])))), after, versions))
    ensures after == cache || (after.Some? && after.value.stamp.Some? && after.value.origin == |versions| - 1)
  {
    ReadArrives(w, cache, versions, luck);
    after := ReadOutcome(w, cache, versions, luck).cache;
  }

  // A young cache with the stamp of the file answers without a look into the file, and
  // one that is old or has another stamp, or none, never does.
  lemma ReadAnswers(w: World, cache: Option<Cache>, before: seq<Version>, file: Version, luck: nat -> Luck)
    returns (after: Option<Cache>, answer: Result<Snapshot, Failure>)
    ensures Arrives(w, Outcome(ReadEnter(|before|), cache, before + [file]), luck,
                    Outcome(ReadDone(|before|, |before|, |before|, answer), after, before + [file]))
    ensures (cache.Some? && cache.value.stamp == Some(Stamp(file.mtime, |file.text|))) ==>
              luck(3).young && !luck(3).fails ==> answer == Ok(cache.value.snap) && after == cache
    ensures (cache.None? || cache.value.stamp != Some(Stamp(file.mtime, |file.text|))
             || (!luck(3).young && !luck(5).young)) ==>
              && (answer == Err(LoadFailed) <==> luck(6).fails || w.load(file.text).None?)
              && (answer == Err(StatFailed) <==> !luck(6).fails && w.load(file.text).Some? && luck(7).fails)
              && (!luck(6).fails && w.load(file.text).Some? && !luck(7).fails ==>
                    && answer == Ok(Snapshot(w.load(file.text).value, Revision(file)))
                    && var stamp := if luck(8).fails then None else Some(Stamp(file.mtime, |file.text|));
                       after == Some(Cache(answer.value, stamp, |before|)))
    ensures answer.Err? ==> after == cache
  {
    ReadArrives(w, cache, before + [file], luck);
    var e := ReadOutcome(w, cache, before + [file], luck);
    after, answer := e.cache, e.call.answer;
  }

  lemma ReadArrives(w: World, cache: Option<Cache>, versions: seq<Version>, luck: nat -> Luck)
    requires versions != []
    ensures Arrives(w, Outcome(ReadEnter(|versions| - 1), cache, versions), luck, ReadOutcome(w, cache, versions, luck))
  {
    var now := |versions| - 1;
    var h := Course(w, Outcome(ReadEnter(now), cache, versions), luck);
    ReadStarts(w, h, luck, now);
    if !Valid(versions[now], cache, luck(3)) {
      ReadLoads(w, h, luck, now);
    }
  }

  lemma UpdateArrives(w: World, req: Request, cache: Option<Cache>, versions: seq<Version>, luck: nat -> Luck)
    requires versions != []
    ensures Arrives(w, Outcome(UpdateLock(req), cache, versions), luck, UpdateOutcome(w, req, cache, versions, luck))
  {
    var h := Course(w, Outcome(UpdateLock(req), cache, versions), luck);
    UpdateEdits(w, h, luck, req);
    match Edited(w, versions[|versions| - 1], req, luck)
    case Err(_) =>
    case Ok(text) => UpdateWrites(w, h, luck, 4, req, text);
  }

  // Through the first stat: the fast answer, or on to the second.
  lemma ReadStarts(w: World, h: nat -> Outcome, luck: nat -> Luck, now: nat)
    requires Alone(w, h, luck) && now == |h(0).versions| - 1 && h(0).call == ReadEnter(now)
    ensures if Valid(h(0).versions[now], h(0).cache, luck(3)) then
              Reaches(h, h(0).(call := ReadDone(now, now, now, Ok(h(0).cache.value.snap))))
            else h(5) == h(0).(call := ReadAgain(now))
  {
    var o := h(0);
    assert Does(w, h, luck, 0) && h(1) == o.(call := ReadCopy(now));
    assert Does(w, h, luck, 1) && h(2) == o.(call := ReadLeave(now, o.cache));
    assert Does(w, h, luck, 2) && h(3) == o.(call := ReadStat(now, o.cache));
    assert Does(w, h, luck, 3) && Does(w, h, luck, 4);
    if Valid(o.versions[now], o.cache, luck(3)) {
      assert h(4) == o.(call := ReadReturn(now, now, Ok(o.cache.value.snap)));
      assert h(5) == o.(call := ReadDone(now, now, now, Ok(o.cache.value.snap)));
    } else {
      assert h(4) == o.(call := ReadLock(now));
    }
  }

  // From the second stat on.
  lemma ReadLoads(w: World, h: nat -> Outcome, luck: nat -> Luck, now: nat)
    requires Alone(w, h, luck) && now == |h(5).versions| - 1 && h(5).call == ReadAgain(now)
    ensures var o, file := h(5), h(5).versions[now];
            if Valid(file, o.cache, luck(5)) then
              Reaches(h, o.(call := ReadDone(now, now, now, Ok(o.cache.value.snap))))
            else
              match Loaded(w, file, luck)
              case Err(e) => Reaches(h, o.(call := ReadDone(now, now, now, Err(e))))
              case Ok(snap) =>
                var stamp := if luck(8).fails then None else Some(StampOf(file));
                Reaches(h, Outcome(ReadDone(now, now, now, Ok(snap)), Some(Cache(snap, stamp, now)), o.versions))
  {
    var o, file := h(5), h(5).versions[now];
    assert Does(w, h, luck, 5);
    if Valid(file, o.cache, luck(5)) {
      ReadEnds(w, h, luck, 6, now, Ok(o.cache.value.snap));
    } else {
      assert h(6) == o.(call := ReadLoad(now));
      assert Does(w, h, luck, 6);
      if luck(6).fails || w.load(file.text).None? {
        ReadEnds(w, h, luck, 7, now, Err(LoadFailed));
      } else {
        ReadTries(w, h, luck, now, o, w.load(file.text).value);
      }
    }
  }

  lemma ReadTries(w: World, h: nat -> Outcome, luck: nat -> Luck, now: nat, o: Outcome, config: Config)
    requires Alone(w, h, luck) && now == |o.versions| - 1 && h(7) == o.(call := ReadRevision(now, config))
    ensures var snap := Snapshot(config, Revision(o.versions[now]));
            if luck(7).fails then Reaches(h, o.(call := ReadDone(now, now, now, Err(StatFailed))))
            else
              var stamp := if luck(8).fails then None else Some(StampOf(o.versions[now]));
              Reaches(h, Outcome(ReadDone(now, now, now, Ok(snap)), Some(Cache(snap, stamp, now)), o.versions))
  {
    assert Does(w, h, luck, 7);
    if luck(7).fails {
      ReadEnds(w, h, luck, 8, now, Err(StatFailed));
    } else {
      assert h(8) == o.(call := ReadStore(now, config, Revision(o.versions[now])));
      assert Does(w, h, luck, 8);
      ReadEnds(w, h, luck, 9, now, Ok(Snapshot(config, Revision(o.versions[now]))));
    }
  }

  lemma ReadEnds(w: World, h: nat -> Outcome, luck: nat -> Luck, n: nat, now: nat, answer: Result<Snapshot, Failure>)
    requires Alone(w, h, luck) && |h(n).versions| == now + 1 && h(n).call == ReadUnlock(now, answer)
    ensures Reaches(h, h(n).(call := ReadDone(now, now, now, answer)))
  {
    assert Does(w, h, luck, n) && h(n + 1).call.ReadReturn?;
    assert Does(w, h, luck, n + 1);
  }

  // Up to the write.
  lemma UpdateEdits(w: World, h: nat -> Outcome, luck: nat -> Luck, req: Request)
    requires Alone(w, h, luck) && h(0).versions != [] && h(0).call == UpdateLock(req)
    ensures var o, now := h(0), |h(0).versions| - 1;
            match Edited(w, o.versions[now], req, luck)
            case Err(e) => Reaches(h, o.(call := UpdateDone(req, now, Err(e))))
            case Ok(text) => h(4) == o.(call := UpdateWrite(req, text))
  {
    var o, file := h(0), h(0).versions[|h(0).versions| - 1];
    assert Does(w, h, luck, 0) && Does(w, h, luck, 1);
    assert h(1) == o.(call := UpdateLoad(req));
    if luck(1).fails || w.load(file.text).None? {
      UpdateEnds(w, h, luck, 2, req, Err(LoadFailed));
    } else {
      UpdateChecks(w, h, luck, req, o, file, w.load(file.text).value);
    }
  }

  lemma UpdateChecks(w: World, h: nat -> Outcome, luck: nat -> Luck, req: Request, o: Outcome, file: Version,
                     config: Config)
    requires Alone(w, h, luck) && o.versions != [] && file == o.versions[|o.versions| - 1]
    requires h(2) == o.(call := UpdateCheck(req, config)) && !luck(1).fails && w.load(file.text) == Some(config)
    ensures match Edited(w, file, req, luck)
            case Err(e) => Reaches(h, o.(call := UpdateDone(req, |o.versions| - 1, Err(e))))
            case Ok(text) => h(4) == o.(call := UpdateWrite(req, text))
  {
    assert Does(w, h, luck, 2) && Does(w, h, luck, 3);
    if req.expected != "" && (luck(2).fails || Revision(file) != req.expected) {
      UpdateEnds(w, h, luck, 3, req, Err(if luck(2).fails then StatFailed else Conflict));
    } else {
      assert h(3) == o.(call := UpdateMutate(req, config));
      var edited := req.mutate(config);
      if edited.None? || w.marshal(edited.value).None? {
        UpdateEnds(w, h, luck, 4, req, Err(if edited.None? then MutateFailed else MarshalFailed));
      }
    }
  }

  // The write and what follows.
  lemma UpdateWrites(w: World, h: nat -> Outcome, luck: nat -> Luck, k: nat, req: Request, text: string)
    requires Alone(w, h, luck) && h(k).versions != [] && h(k).call == UpdateWrite(req, text)
    ensures var o, v := h(k), Version(text, luck(k).time);
            var vs := o.versions + [v];
            if luck(k).fails then Reaches(h, o.(call := UpdateDone(req, |o.versions| - 1, Err(WriteFailed))))
            else if luck(k + 1).fails then
              Reaches(h, Outcome(UpdateDone(req, |o.versions|, Err(Unconfirmed)), o.cache, vs))
            else Reaches(h, Outcome(UpdateDone(req, |o.versions|, Ok(Revision(v))), None, vs))
  {
    var o, v := h(k), Version(text, luck(k).time);
    assert Does(w, h, luck, k);
    if luck(k).fails {
      UpdateEnds(w, h, luck, k + 1, req, Err(WriteFailed));
    } else {
      assert h(k + 1) == Outcome(UpdateRevision(req), o.cache, o.versions + [v]);
      UpdateForgets(w, h, luck, k, req, h(k + 1), v);
    }
  }

  lemma UpdateForgets(w: World, h: nat -> Outcome, luck: nat -> Luck, k: nat, req: Request, o: Outcome, v: Version)
    requires Alone(w, h, luck) && h(k + 1) == o && o.call == UpdateRevision(req)
    requires o.versions != [] && o.versions[|o.versions| - 1] == v
    ensures var now := |o.versions| - 1;
            if luck(k + 1).fails then Reaches(h, o.(call := UpdateDone(req, now, Err(Unconfirmed))))
            else Reaches(h, Outcome(UpdateDone(req, now, Ok(Revision(v))), None, o.versions))
  {
    assert Does(w, h, luck, k + 1) && Does(w, h, luck, k + 2);
    if luck(k + 1).fails {
      UpdateEnds(w, h, luck, k + 2, req, Err(Unconfirmed));
    } else {
      assert h(k + 2) == o.(call := UpdateForget(req, Revision(v)));
      UpdateEnds(w, h, luck, k + 3, req, Ok(Revision(v)));
    }
  }

  lemma UpdateEnds(w: World, h: nat -> Outcome, luck: nat -> Luck, n: nat, req: Request,
                   result: Result<string, Failure>)
    requires Alone(w, h, luck) && h(n).versions != [] && h(n).call == UpdateUnlock(req, result)
    ensures Reaches(h, h(n).(call := UpdateDone(req, |h(n).versions| - 1, result)))
  {
    assert Does(w, h, luck, n);
  }

  // ------------------------------------------------------------------
  // The invariant
  // ------------------------------------------------------------------

  // The snapshot is what version k of the file holds.
  ghost predicate TruePair(w: World, versions: seq<Version>, k: nat, snap: Snapshot) {
    k < |versions| && w.load(versions[k].text) == Some(snap.config) && Revision(versions[k]) == snap.revision
  }

  // The request, made on this version, gives this text.
  ghost predicate Derives(w: World, req: Request, v: Version, text: string) {
    && w.load(v.text).Some?
    && (req.expected == "" || Revision(v) == req.expected)
    && var edited := req.mutate(w.load(v.text).value);
       edited.Some? && w.marshal(edited.value) == Some(text)
  }

  ghost predicate HistoryOk(w: World, s: State) {
    && |s.versions| == |s.writes| + 1
    && (forall k :: 0 <= k < |s.writes| ==> Derives(w, s.writes[k].req, s.versions[k], s.versions[k + 1].text))
    && (forall k, l :: 0 <= k < l < |s.versions| ==> StampOf(s.versions[k]) != StampOf(s.versions[l]))
  }

  ghost predicate CacheOk(w: World, versions: seq<Version>, cache: Option<Cache>) {
    cache.Some? ==>
      && TruePair(w, versions, cache.value.origin, cache.value.snap)
      && (cache.value.stamp.Some? ==> cache.value.stamp.value == StampOf(versions[cache.value.origin]))
  }

  ghost predicate LocksOk(s: State) {
    && (s.writer.Some? ==> s.readers == {} && s.writer.value in s.calls)
    && (forall t :: t in s.calls ==> (HoldsLock(s.calls[t]) <==> s.writer == Some(t)))
    && (forall t :: t in s.calls ==> (HoldsRead(s.calls[t]) <==> t in s.readers))
    && (forall t :: t in s.readers ==> t in s.calls)
  }

  // The last version was written by this call.
  ghost predicate Wrote(s: State, k: nat, t: nat, req: Request) {
    0 < k < |s.versions| && |s.versions| == |s.writes| + 1 && s.writes[k - 1] == Write(t, req)
  }

  // What the result of an update says of the version v it started from.
  ghost predicate ResultOf(w: World, v: Version, req: Request, result: Result<string, Failure>) {
    result != Err(LoadFailed) ==>
      && w.load(v.text).Some?
      && (result == Err(StatFailed) ==> req.expected != "")
      && (result == Err(Conflict) ==> req.expected != "" && Revision(v) != req.expected)
      && (result != Err(StatFailed) && result != Err(Conflict) ==>
            && (req.expected == "" || Revision(v) == req.expected)
            && var edited := req.mutate(w.load(v.text).value);
               && (result == Err(MutateFailed) <==> edited.None?)
               && (result == Err(MarshalFailed) <==> edited.Some? && w.marshal(edited.value).None?))
  }

  // What a call knows about the file, which holds still while the call has the lock.
  ghost predicate CallOk(w: World, s: State, t: nat, c: Call)
    requires s.versions != []
  {
    var now, file := Now(s), s.versions[Now(s)];
    match c
    case ReadEnter(b) => b <= now
    case ReadCopy(b) => b <= now
    case ReadLeave(b, seen) => b <= now && CacheOk(w, s.versions, seen)
    case ReadStat(b, seen) => b <= now && CacheOk(w, s.versions, seen)
    case ReadLock(b) => b <= now
    case ReadAgain(b) => b <= now
    case ReadLoad(b) => b <= now
    case ReadRevision(b, config) => b <= now && w.load(file.text) == Some(config)
    case ReadStore(b, config, revision) => b <= now && TruePair(w, s.versions, now, Snapshot(config, revision))
    case ReadUnlock(b, answer) => b <= now && (answer.Ok? ==> TruePair(w, s.versions, now, answer.value))
    case ReadReturn(b, at, answer) => b <= at <= now && (answer.Ok? ==> TruePair(w, s.versions, at, answer.value))
    case ReadDone(b, at, end, answer) =>
      b <= at <= end <= now && (answer.Ok? ==> TruePair(w, s.versions, at, answer.value))
    case UpdateLock(req) => true
    case UpdateLoad(req) => true
    case UpdateCheck(req, config) => w.load(file.text) == Some(config)
    case UpdateMutate(req, config) =>
      w.load(file.text) == Some(config) && (req.expected == "" || Revision(file) == req.expected)
    case UpdateWrite(req, text) => Derives(w, req, file, text)
    case UpdateRevision(req) => Wrote(s, now, t, req)
    case UpdateForget(req, revision) => Wrote(s, now, t, req) && revision == Revision(file)
    case UpdateUnlock(req, result) =>
      && (result.Ok? || result == Err(Unconfirmed) ==> Wrote(s, now, t, req))
      && (result.Ok? ==> result.value == Revision(file))
      && (result.Err? && result != Err(Unconfirmed) ==> ResultOf(w, file, req, result))
    case UpdateDone(req, end, result) =>
      && end <= now
      && (result.Ok? || result == Err(Unconfirmed) ==> Wrote(s, end, t, req))
      && (result.Ok? ==> result.value == Revision(s.versions[end]))
      && (result.Err? && result != Err(Unconfirmed) ==> ResultOf(w, s.versions[end], req, result))
  }

  ghost predicate CallsOk(w: World, s: State)
    requires s.versions != []
  {
    forall t :: t in s.calls ==> CallOk(w, s, t, s.calls[t])
  }

  ghost predicate Inv(w: World, s: State) {
    HistoryOk(w, s) && CacheOk(w, s.versions, s.cache) && LocksOk(s) && CallsOk(w, s)
  }

  // A cache whose stamp is the file's holds the file's pair.
  lemma ValidIsCurrent(w: World, s: State, c: Option<Cache>, luck: Luck)
    requires HistoryOk(w, s) && CacheOk(w, s.versions, c) && Valid(s.versions[Now(s)], c, luck)
    ensures c.value.origin == Now(s) && TruePair(w, s.versions, Now(s), c.value.snap)
  {
  }

  // The versions so far stay, and all of them are the same while another call has the
  // lock.
  ghost predicate Extends(s: State, s': State) {
    && s.versions != [] && |s.versions| == |s.writes| + 1
    && |s'.versions| == |s'.writes| + 1
    && s.versions <= s'.versions && s.writes <= s'.writes
  }

  lemma OthersOk(w: World, s: State, s': State, t: nat, c: Call)
    requires Extends(s, s') && CallOk(w, s, t, c)
    requires HoldsLock(c) ==> s'.versions == s.versions && s'.writes == s.writes
    ensures CallOk(w, s', t, c)
  {
  }

  lemma MoverExtends(w: World, s: State, t: nat, luck: Luck)
    requires s.versions != [] && |s.versions| == |s.writes| + 1 && Enabled(s, Move(t, luck))
    ensures var s' := Step(w, s, Move(t, luck));
            && Extends(s, s') && s'.calls.Keys == s.calls.Keys
            && (forall u :: u in s.calls && u != t ==> s'.calls[u] == s.calls[u])
            && (HoldsLock(s.calls[t]) || (s'.versions == s.versions && s'.writes == s.writes))
  {
  }

  lemma ReaderOk(w: World, s: State, t: nat, luck: Luck)
    requires HistoryOk(w, s) && CacheOk(w, s.versions, s.cache) && Enabled(s, Move(t, luck))
    requires IsRead(s.calls[t]) && CallOk(w, s, t, s.calls[t])
    ensures var s' := MoveCall(w, s, t, luck); CallOk(w, s', t, s'.calls[t])
  {
    var c := s.calls[t];
    if c.ReadStat? && Valid(s.versions[Now(s)], c.seen, luck) {
      ValidIsCurrent(w, s, c.seen, luck);
    } else if c.ReadAgain? && Valid(s.versions[Now(s)], s.cache, luck) {
      ValidIsCurrent(w, s, s.cache, luck);
    }
  }

  lemma UpdaterOk(w: World, s: State, t: nat, luck: Luck)
    requires s.versions != [] && |s.versions| == |s.writes| + 1 && Enabled(s, Move(t, luck))
    requires !IsRead(s.calls[t]) && CallOk(w, s, t, s.calls[t])
    ensures var s' := MoveCall(w, s, t, luck); CallOk(w, s', t, s'.calls[t])
  {
  }

  lemma MoveKeepsHistory(w: World, s: State, t: nat, luck: Luck)
    requires Inv(w, s) && Enabled(s, Move(t, luck))
    ensures HistoryOk(w, Step(w, s, Move(t, luck)))
  {
    assert CallOk(w, s, t, s.calls[t]);
  }

  lemma MoveKeepsCache(w: World, s: State, t: nat, luck: Luck)
    requires Inv(w, s) && Enabled(s, Move(t, luck))
    ensures var s' := Step(w, s, Move(t, luck)); CacheOk(w, s'.versions, s'.cache)
  {
    assert CallOk(w, s, t, s.calls[t]);
  }

  lemma StepKeepsLocks(w: World, s: State, a: Action)
    requires s.versions != [] && LocksOk(s) && Enabled(s, a)
    ensures LocksOk(Step(w, s, a))
  {
    if a.Move? {
      LocksAreTaken(w, s, a.call, a.luck);
    }
  }

  // A call that comes to hold a lock waited for it.
  lemma LocksAreTaken(w: World, s: State, t: nat, luck: Luck)
    requires s.versions != [] && Enabled(s, Move(t, luck))
    ensures var c, c' := s.calls[t], Next(w, s.versions, s.cache, s.calls[t], luck).call;
            && (HoldsLock(c') && !HoldsLock(c) ==> s.writer.None? && s.readers == {})
            && (HoldsRead(c') && !HoldsRead(c) ==> s.writer.None?)
            && !(HoldsLock(c') && HoldsRead(c'))
  {
  }

  lemma StepKeepsInv(w: World, s: State, a: Action)
    requires Inv(w, s) && Enabled(s, a)
    ensures Inv(w, Step(w, s, a)) && Extends(s, Step(w, s, a))
  {
    var s' := Step(w, s, a);
    StepKeepsLocks(w, s, a);
    if a.Move? {
      var t := a.call;
      assert CallOk(w, s, t, s.calls[t]);
      MoverExtends(w, s, t, a.luck);
      if IsRead(s.calls[t]) {
        ReaderOk(w, s, t, a.luck);
      } else {
        UpdaterOk(w, s, t, a.luck);
      }
      MoveKeepsHistory(w, s, t, a.luck);
      MoveKeepsCache(w, s, t, a.luck);
      forall u | u in s'.calls && u != t ensures CallOk(w, s', u, s'.calls[u]) {
        OthersOk(w, s, s', u, s.calls[u]);
      }
    } else {
      forall u | u in s.calls ensures CallOk(w, s', u, s.calls[u]) {
        OthersOk(w, s, s', u, s.calls[u]);
      }
    }
  }

  // ------------------------------------------------------------------
  // Runs
  // ------------------------------------------------------------------

  datatype Run = Begin | Then(before: Run, last: Action)

  ghost predicate Start(s: State) {
    |s.versions| == 1 && s.writes == [] && s.cache.None? && s.writer.None? && s.readers == {} && s.calls == map[]
  }

  // Where a run leads from s, if it is possible.
  function After(w: World, s: State, r: Run): Option<State> {
    match r
    case Begin => Some(s)
    case Then(before, a) =>
      match After(w, s, before)
      case None => None
      case Some(m) => if m.versions != [] && Enabled(m, a) then Some(Step(w, m, a)) else None
  }

  lemma {:induction false} RunKeepsInv(w: World, s: State, r: Run)
    requires Inv(w, s) && After(w, s, r).Some?
    ensures Inv(w, After(w, s, r).value) && Extends(s, After(w, s, r).value)
    decreases r
  {
    if r.Then? {
      RunKeepsInv(w, s, r.before);
      StepKeepsInv(w, After(w, s, r.before).value, r.last);
    }
  }

  // Over every run a call that has the lock keeps out all others, and one that copies the
  // cache keeps out those that have the lock.
  lemma LocksExclude(w: World, s0: State, r: Run, t: nat, u: nat)
    requires Start(s0) && After(w, s0, r).Some? && t != u
    requires var calls := After(w, s0, r).value.calls;
             && t in calls && u in calls
             && (calls[t].ReadCopy? || calls[t].ReadLeave?
                 || calls[t].ReadAgain? || calls[t].ReadLoad? || calls[t].ReadRevision? || calls[t].ReadStore?
                 || calls[t].UpdateLoad? || calls[t].UpdateCheck? || calls[t].UpdateMutate? || calls[t].UpdateWrite?
                 || calls[t].UpdateRevision? || calls[t].UpdateForget?)
    ensures var c := After(w, s0, r).value.calls[u];
            && !c.ReadAgain? && !c.ReadLoad? && !c.ReadRevision? && !c.ReadStore?
            && !c.UpdateLoad? && !c.UpdateCheck? && !c.UpdateMutate? && !c.UpdateWrite?
            && !c.UpdateRevision? && !c.UpdateForget?
  {
    RunKeepsInv(w, s0, r);
    var s := After(w, s0, r).value;
    assert HoldsLock(s.calls[u]) <==> s.writer == Some(u);
    assert HoldsLock(s.calls[t]) <==> s.writer == Some(t);
    assert HoldsRead(s.calls[t]) <==> t in s.readers;
  }

  // Every Read answers with a configuration and revision that were the file's at one
  // instant between its start and its return, under any interleaving of calls.
  lemma ReadLinearizes(w: World, s0: State, r: Run, t: nat)
    requires Start(s0) && After(w, s0, r).Some?
    requires var s := After(w, s0, r).value; t in s.calls && s.calls[t].ReadDone? && s.calls[t].answer.Ok?
    ensures var s := After(w, s0, r).value;
            var c := s.calls[t];
            exists k :: c.begin <= k <= c.end && TruePair(w, s.versions, k, c.answer.value)
  {
    RunKeepsInv(w, s0, r);
    var s := After(w, s0, r).value;
    assert CallOk(w, s, t, s.calls[t]);
  }

  // The history of the file is a chain: each version is one call's mutation applied to
  // exactly the version before it, and, when that call named a revision, to the version
  // of that revision. No update is lost.
  lemma UpdatesChain(w: World, s0: State, r: Run, k: nat)
    requires Start(s0) && After(w, s0, r).Some? && k < |After(w, s0, r).value.writes|
    ensures var s := After(w, s0, r).value;
            |s.versions| == |s.writes| + 1 && Derives(w, s.writes[k].req, s.versions[k], s.versions[k + 1].text)
  {
    RunKeepsInv(w, s0, r);
  }

  lemma SuccessApplied(w: World, s: State, t: nat)
    requires Inv(w, s) && t in s.calls && s.calls[t].UpdateDone? && s.calls[t].result.Ok?
    ensures var c := s.calls[t];
            exists k: nat :: && Wrote(s, k, t, c.req) && Derives(w, c.req, s.versions[k - 1], s.versions[k].text)
                             && c.result.value == Revision(s.versions[k])
  {
    var c := s.calls[t];
    assert CallOk(w, s, t, c);
    var k := c.end;
    assert Derives(w, s.writes[k - 1].req, s.versions[k - 1], s.versions[k - 1 + 1].text);
    assert Wrote(s, k, t, c.req);
  }

  // A successful update wrote a version, returns its revision, and applied its mutation
  // to the version before.
  lemma UpdateApplies(w: World, s0: State, r: Run, t: nat)
    requires Start(s0) && After(w, s0, r).Some?
    requires var s := After(w, s0, r).value; t in s.calls && s.calls[t].UpdateDone? && s.calls[t].result.Ok?
    ensures var s := After(w, s0, r).value;
            var c := s.calls[t];
            exists k: nat :: && Wrote(s, k, t, c.req) && Derives(w, c.req, s.versions[k - 1], s.versions[k].text)
                        && c.result.value == Revision(s.versions[k])
  {
    RunKeepsInv(w, s0, r);
    SuccessApplied(w, After(w, s0, r).value, t);
  }

  lemma SameRevision(w: World, s: State, j: nat, k: nat)
    requires HistoryOk(w, s) && j < |s.writes| && k < |s.writes|
    requires s.writes[j].req.expected == s.writes[k].req.expected != ""
    ensures j == k
  {
    assert Derives(w, s.writes[j].req, s.versions[j], s.versions[j + 1].text);
    assert Derives(w, s.writes[k].req, s.versions[k], s.versions[k + 1].text);
    RevisionInjective(s.versions[j], s.versions[k]);
  }

  lemma SuccessWrote(w: World, s: State, t: nat)
    requires Inv(w, s) && t in s.calls && s.calls[t].UpdateDone? && s.calls[t].result.Ok?
    ensures Wrote(s, s.calls[t].end, t, s.calls[t].req)
  {
    assert CallOk(w, s, t, s.calls[t]);
  }

  lemma SameWinner(w: World, s: State, t: nat, u: nat)
    requires Inv(w, s) && t in s.calls && u in s.calls
    requires s.calls[t].UpdateDone? && s.calls[t].result.Ok? && s.calls[u].UpdateDone? && s.calls[u].result.Ok?
    requires s.calls[t].req.expected == s.calls[u].req.expected != ""
    ensures t == u
  {
    SuccessWrote(w, s, t);
    SuccessWrote(w, s, u);
    SameRevision(w, s, s.calls[t].end - 1, s.calls[u].end - 1);
  }

  // First committer wins: of all calls that name the same revision, at most one write
  // happens.
  lemma FirstCommitterWins(w: World, s0: State, r: Run, j: nat, k: nat)
    requires Start(s0) && After(w, s0, r).Some?
    requires var s := After(w, s0, r).value;
             j < |s.writes| && k < |s.writes| && s.writes[j].req.expected == s.writes[k].req.expected != ""
    ensures j == k
  {
    RunKeepsInv(w, s0, r);
    SameRevision(w, After(w, s0, r).value, j, k);
  }

  // And so at most one of these calls succeeds.
  lemma OneWinner(w: World, s0: State, r: Run, t: nat, u: nat)
    requires Start(s0) && After(w, s0, r).Some?
    requires var calls := After(w, s0, r).value.calls;
             && t in calls && calls[t].UpdateDone? && calls[t].result.Ok?
             && u in calls && calls[u].UpdateDone? && calls[u].result.Ok?
             && calls[t].req.expected == calls[u].req.expected != ""
    ensures t == u
  {
    RunKeepsInv(w, s0, r);
    SameWinner(w, After(w, s0, r).value, t, u);
  }

  // The version of a revision is unique, so an answer says which version it is.
  lemma PairIsUnique(w: World, s: State, j: nat, k: nat, snap: Snapshot)
    requires Inv(w, s) && TruePair(w, s.versions, j, snap) && TruePair(w, s.versions, k, snap)
    ensures j == k
  {
    RevisionInjective(s.versions[j], s.versions[k]);
  }

  function StartOf(c: Call): Option<nat> { if IsRead(c) then Some(c.begin) else None }

  lemma StartKept(w: World, s: State, a: Action, t: nat)
    requires s.versions != [] && Enabled(s, a) && t in s.calls
    ensures var e := Step(w, s, a); t in e.calls && StartOf(e.calls[t]) == StartOf(s.calls[t])
  {
  }

  lemma {:induction false} StartStays(w: World, s: State, r: Run, t: nat)
    requires Inv(w, s) && After(w, s, r).Some? && t in s.calls
    ensures var e := After(w, s, r).value; t in e.calls && StartOf(e.calls[t]) == StartOf(s.calls[t])
    decreases r
  {
    if r.Then? {
      StartStays(w, s, r.before, t);
      StartKept(w, After(w, s, r.before).value, r.last, t);
    }
  }

  // A read that starts in s answers with no older version than s has, whatever runs in
  // between: no older than any successful update or read before it.
  lemma ReadsNeverGoBack(w: World, s: State, t: nat, r: Run, k: nat)
    requires Inv(w, s) && Enabled(s, BeginRead(t))
    requires After(w, Step(w, s, BeginRead(t)), r).Some?
    requires var e := After(w, Step(w, s, BeginRead(t)), r).value;
             && t in e.calls && e.calls[t].ReadDone? && e.calls[t].answer.Ok?
             && TruePair(w, e.versions, k, e.calls[t].answer.value)
    ensures k >= Now(s)
  {
    var s1 := Step(w, s, BeginRead(t));
    var e := After(w, s1, r).value;
    StepKeepsInv(w, s, BeginRead(t));
    RunKeepsInv(w, s1, r);
    StartStays(w, s1, r, t);
    assert CallOk(w, e, t, e.calls[t]);
    PairIsUnique(w, e, e.calls[t].at, k, e.calls[t].answer.value);
  }

  // ------------------------------------------------------------------
  // Errors and writes
  // ------------------------------------------------------------------

  // The places after the write.
  predicate HasWritten(c: Call) {
    || c.UpdateRevision? || c.UpdateForget?
    || ((c.UpdateUnlock? || c.UpdateDone?) && (c.result.Ok? || c.result == Err(Unconfirmed)))
  }

  ghost predicate WroteVersion(s: State, t: nat) { exists k :: 0 <= k < |s.writes| && s.writes[k].call == t }

  // A version has been written by exactly the calls that are past their write, once each.
  ghost predicate WritersOk(s: State) {
    && (forall k :: 0 <= k < |s.writes| ==> s.writes[k].call in s.calls)
    && (forall t :: t in s.calls ==> (WroteVersion(s, t) <==> HasWritten(s.calls[t])))
    && (forall j, k :: 0 <= j < k < |s.writes| ==> s.writes[j].call != s.writes[k].call)
  }

  lemma MoveWrites(w: World, s: State, t: nat, luck: Luck)
    requires s.versions != [] && Enabled(s, Move(t, luck))
    ensures var s', c := MoveCall(w, s, t, luck), s.calls[t];
            if c.UpdateWrite? && !luck.fails then
              s'.writes == s.writes + [Write(t, c.req)] && !HasWritten(c) && HasWritten(s'.calls[t])
            else s'.writes == s.writes && (HasWritten(s'.calls[t]) <==> HasWritten(c))
  {
  }

  lemma MoreWrites(s: State, s': State, t: nat, req: Request, u: nat)
    requires s'.writes == s.writes + [Write(t, req)]
    ensures WroteVersion(s', u) <==> u == t || WroteVersion(s, u)
  {
    assert s'.writes[|s.writes|].call == t;
    if k :| 0 <= k < |s.writes| && s.writes[k].call == u {
      assert s'.writes[k].call == u;
    }
  }

  lemma StepKeepsWriters(w: World, s: State, a: Action)
    requires s.versions != [] && WritersOk(s) && Enabled(s, a)
    ensures WritersOk(Step(w, s, a))
  {
    var s' := Step(w, s, a);
    if a.Move? && s'.writes != s.writes {
      var t := a.call;
      MoveWrites(w, s, t, a.luck);
      forall u | u in s'.calls ensures WroteVersion(s', u) <==> HasWritten(s'.calls[u]) {
        MoreWrites(s, s', t, s.calls[t].req, u);
      }
      assert !WroteVersion(s, t);
    } else {
      if a.Move? {
        MoveWrites(w, s, a.call, a.luck);
      }
      forall u | u in s'.calls ensures WroteVersion(s', u) <==> HasWritten(s'.calls[u]) {
        assert WroteVersion(s', u) <==> WroteVersion(s, u);
      }
    }
  }

  lemma {:induction false} RunKeepsWriters(w: World, s: State, r: Run)
    requires s.versions != [] && WritersOk(s) && After(w, s, r).Some?
    ensures WritersOk(After(w, s, r).value)
    decreases r
  {
    if r.Then? {
      RunKeepsWriters(w, s, r.before);
      StepKeepsWriters(w, After(w, s, r.before).value, r.last);
    }
  }

  // A returned update has written a version exactly if it succeeded or could not read the
  // revision of what it had written; every other error means that it wrote nothing.
  lemma WroteIffReturned(w: World, s0: State, r: Run, t: nat)
    requires Start(s0) && After(w, s0, r).Some?
    requires var s := After(w, s0, r).value; t in s.calls && s.calls[t].UpdateDone?
    ensures var s := After(w, s0, r).value;
            WroteVersion(s, t) <==> s.calls[t].result.Ok? || s.calls[t].result == Err(Unconfirmed)
  {
    RunKeepsWriters(w, s0, r);
  }

  // Where a call is that found n versions when it came to check the revision.
  ghost predicate CheckedAt(s: State, t: nat, n: nat, req: Request) {
    && t in s.calls && !IsRead(s.calls[t]) && s.calls[t].req == req
    && (s.calls[t].UpdateUnlock? || s.calls[t].UpdateDone? ==> s.calls[t].result != Err(LoadFailed))
    && match s.calls[t]
       case UpdateLock(_) => false
       case UpdateLoad(_) => false
       case UpdateDone(_, end, _) => end + 1 == if HasWritten(s.calls[t]) then n + 1 else n
       case c => |s.versions| == if HasWritten(c) then n + 1 else n
  }

  lemma StepKeepsChecked(w: World, s: State, a: Action, t: nat, n: nat, req: Request)
    requires Inv(w, s) && Enabled(s, a) && CheckedAt(s, t, n, req)
    ensures CheckedAt(Step(w, s, a), t, n, req)
  {
    if a.Move? && a.call != t {
      assert HoldsLock(s.calls[t]) ==> !HoldsLock(s.calls[a.call]);
      MoverExtends(w, s, a.call, a.luck);
    }
  }

  lemma {:induction false} RunKeepsChecked(w: World, s: State, r: Run, t: nat, n: nat, req: Request)
    requires Inv(w, s) && After(w, s, r).Some? && CheckedAt(s, t, n, req)
    ensures CheckedAt(After(w, s, r).value, t, n, req)
    decreases r
  {
    if r.Then? {
      RunKeepsInv(w, s, r.before);
      RunKeepsChecked(w, s, r.before, t, n, req);
      StepKeepsChecked(w, After(w, s, r.before).value, r.last, t, n, req);
    }
  }

  // An update that has come to its check in s, with the file's version there in hand, and
  // whose stat does not fail, is refused exactly if it names a revision and that version
  // has another one; whatever runs before it returns, its mutation and marshalling fail
  // exactly if they do so on that version.
  lemma ConflictIff(w: World, s: State, t: nat, r: Run)
    requires Inv(w, s) && t in s.calls && s.calls[t].UpdateCheck? && After(w, s, r).Some?
    requires var e := After(w, s, r).value;
             t in e.calls && e.calls[t].UpdateDone? && e.calls[t].result != Err(StatFailed)
    ensures var file, result := s.versions[|s.versions| - 1], After(w, s, r).value.calls[t].result;
            var expected := s.calls[t].req.expected;
            && w.load(file.text).Some?
            && (result == Err(Conflict) <==> expected != "" && expected != Revision(file))
            && var edited := s.calls[t].req.mutate(w.load(file.text).value);
               expected == "" || expected == Revision(file) ==>
                 && (result == Err(MutateFailed) <==> edited.None?)
                 && (result == Err(MarshalFailed) <==> edited.Some? && w.marshal(edited.value).None?)
  {
    var e := After(w, s, r).value;
    RunKeepsInv(w, s, r);
    RunKeepsChecked(w, s, r, t, |s.versions|, s.calls[t].req);
    assert e.versions[|s.versions| - 1] == s.versions[|s.versions| - 1];
    DoneAt(w, e, t, |s.versions|);
  }

  lemma DoneAt(w: World, e: State, t: nat, n: nat)
    requires Inv(w, e) && t in e.calls && e.calls[t].UpdateDone? && 0 < n <= |e.versions|
    requires CheckedAt(e, t, n, e.calls[t].req)
    ensures var c := e.calls[t];
            && ResultOf(w, e.versions[n - 1], c.req, c.result) && c.result != Err(LoadFailed)
            && (c.result == Err(Conflict) || c.result == Err(StatFailed)
                || c.req.expected == "" || Revision(e.versions[n - 1]) == c.req.expected)
  {
    var c := e.calls[t];
    assert CallOk(w, e, t, c);
    if HasWritten(c) {
      assert Wrote(e, n, t, c.req);
      assert Derives(w, e.writes[n - 1].req, e.versions[n - 1], e.versions[n - 1 + 1].text);
    }
  }

  // No call writes twice, and a Read not at all.
  lemma WritesOnce(w: World, s0: State, r: Run, j: nat, k: nat)
    requires Start(s0) && After(w, s0, r).Some?
    requires var s := After(w, s0, r).value; j < |s.writes| && k < |s.writes| && s.writes[j].call == s.writes[k].call
    ensures var s := After(w, s0, r).value; j == k && s.writes[k].call in s.calls && !IsRead(s.calls[s.writes[k].call])
  {
    RunKeepsWriters(w, s0, r);
    var s := After(w, s0, r).value;
    assert WroteVersion(s, s.writes[k].call);
  }

  // ------------------------------------------------------------------
  // Progress
  // ------------------------------------------------------------------

  // Instructions left.
  function Left(c: Call): nat {
    match c
    case ReadEnter(_) => 11
    case ReadCopy(_) => 10
    case ReadLeave(_, _) => 9
    case ReadStat(_, _) => 8
    case ReadLock(_) => 7
    case ReadAgain(_) => 6
    case ReadLoad(_) => 5
    case ReadRevision(_, _) => 4
    case ReadStore(_, _, _) => 3
    case ReadUnlock(_, _) => 2
    case ReadReturn(_, _, _) => 1
    case UpdateLock(_) => 8
    case UpdateLoad(_) => 7
    case UpdateCheck(_, _) => 6
    case UpdateMutate(_, _) => 5
    case UpdateWrite(_, _) => 4
    case UpdateRevision(_) => 3
    case UpdateForget(_, _) => 2
    case UpdateUnlock(_, _) => 1
    case _ => 0
  }

  // Each instruction brings its call nearer to its return.
  lemma MoveAdvances(w: World, s: State, t: nat, luck: Luck)
    requires s.versions != [] && Enabled(s, Move(t, luck))
    ensures Left(Step(w, s, Move(t, luck)).calls[t]) < Left(s.calls[t])
    ensures forall u :: u in s.calls && u != t ==> Step(w, s, Move(t, luck)).calls[u] == s.calls[u]
  {
  }

  // No stamp has this time.
  function LateTime(versions: seq<Version>): (time: nat)
    ensures forall k :: 0 <= k < |versions| ==> versions[k].mtime < time
  {
    if versions == [] then 0
    else
      var n := LateTime(versions[..|versions| - 1]);
      var m := versions[|versions| - 1].mtime;
      if m < n then n else m + 1
  }

  // While a call has not returned, some call can move: the one with the lock, or any
  // with the read lock, or else that call itself.
  lemma NeverStuck(w: World, s: State, t: nat) returns (u: nat, luck: Luck)
    requires Inv(w, s) && t in s.calls && !Returned(s.calls[t])
    ensures Enabled(s, Move(u, luck))
    ensures s.writer.Some? ==> s.writer.value == u
    ensures s.writer.None? && s.readers != {} ==> u in s.readers
    ensures s.writer.None? && s.readers == {} ==> u == t
  {
    luck := Luck(true, false, LateTime(s.versions));
    if s.writer.Some? {
      u := s.writer.value;
    } else if s.readers != {} {
      u :| u in s.readers;
    } else {
      u := t;
    }
  }

  // ------------------------------------------------------------------
  // Two services on one file
  // ------------------------------------------------------------------

  // Each with its own lock, cache and calls; they share only the file.
  datatype Two = Two(a: State, b: State)

  function Side(s: Two, first: bool): State { if first then s.a else s.b }

  // The other service finds the file as this one leaves it.
  function Share(mine: State, other: State): State { other.(versions := mine.versions, writes := mine.writes) }

  function StepTwo(w: World, s: Two, first: bool, a: Action): Two
    requires Side(s, first).versions != [] && Enabled(Side(s, first), a)
  {
    var mine := Step(w, Side(s, first), a);
    if first then Two(mine, Share(mine, s.b)) else Two(Share(mine, s.a), mine)
  }

  datatype RunTwo = Idle | Go(before: RunTwo, first: bool, last: Action)

  function AfterTwo(w: World, s: Two, r: RunTwo): Option<Two> {
    match r
    case Idle => Some(s)
    case Go(before, first, a) =>
      match AfterTwo(w, s, before)
      case None => None
      case Some(m) =>
        if Side(m, first).versions != [] && Enabled(Side(m, first), a) then Some(StepTwo(w, m, first, a)) else None
  }

  // A service that has just started on a file.
  function Started(v: Version): State { State([v], [], None, None, {}, map[]) }

  // The call is there in the course h of one with nothing in between.
  ghost predicate Stands(s: State, t: nat, e: Outcome) {
    t in s.calls && Outcome(s.calls[t], s.cache, s.versions) == e
  }

  // Instruction e can be next.
  ghost predicate CanGo(s: State, e: Outcome, luck: Luck) {
    && !Returned(e.call)
    && (Waiting(e.call) ==> s.writer.None? && s.readers == {})
    && (e.call.UpdateWrite? && !luck.fails ==> FreshStamp(e.versions, Version(e.call.text, luck.time)))
  }

  lemma GoesOn(w: World, s0: Two, r: RunTwo, s: Two, first: bool, t: nat, luck: Luck, e: Outcome)
    returns (r': RunTwo, s': Two)
    requires AfterTwo(w, s0, r) == Some(s) && Stands(Side(s, first), t, e) && e.versions != []
    requires CanGo(Side(s, first), e, luck)
    ensures AfterTwo(w, s0, r') == Some(s')
    ensures Stands(Side(s', first), t, Next(w, e.versions, e.cache, e.call, luck))
    ensures Side(s', !first) == Share(Side(s', first), Side(s, !first))
  {
    r' := Go(r, first, Move(t, luck));
    s' := StepTwo(w, s, first, Move(t, luck));
  }

  // A call that does not wait on the way does n instructions in a row.
  lemma {:induction false} GoesAlong(w: World, s0: Two, r: RunTwo, s: Two, first: bool, t: nat, luck: nat -> Luck,
                                     h: nat -> Outcome, n: nat)
    returns (r': RunTwo, s': Two)
    requires AfterTwo(w, s0, r) == Some(s) && Stands(Side(s, first), t, h(0)) && Alone(w, h, luck)
    requires forall i: nat :: i < n ==> CanGo(Side(s, first), h(i), luck(i)) && (Waiting(h(i).call) ==> i == 0)
    ensures AfterTwo(w, s0, r') == Some(s') && Stands(Side(s', first), t, h(n))
    ensures n > 0 ==> Side(s', !first) == Share(Side(s', first), Side(s, !first))
    ensures n == 0 ==> s' == s
  {
    if n == 0 {
      r', s' := r, s;
    } else {
      var m;
      r', m := GoesAlong(w, s0, r, s, first, t, luck, h, n - 1);
      assert Does(w, h, luck, n - 1) && CanGo(Side(s, first), h(n - 1), luck(n - 1));
      r', s' := GoesOn(w, s0, r', m, first, t, luck(n - 1), h(n - 1));
    }
  }

  // What a request makes of a version.
  ghost predicate Makes(w: World, req: Request, v: Version, text: string) {
    w.load(v.text).Some? && req.expected == Revision(v) && Derives(w, req, v, text)
  }

  ghost predicate Lucky(luck: nat -> Luck) { forall i :: !luck(i).fails }

  lemma EditSteps(w: World, h: nat -> Outcome, luck: nat -> Luck, req: Request, v: Version, text: string)
    requires Alone(w, h, luck) && Lucky(luck) && Makes(w, req, v, text) && h(0) == Outcome(UpdateLock(req), None, [v])
    ensures h(1).call.UpdateLoad? && h(2).call.UpdateCheck? && h(3).call.UpdateMutate?
    ensures h(4) == Outcome(UpdateWrite(req, text), None, [v])
  {
    assert Does(w, h, luck, 0) && h(1) == Outcome(UpdateLoad(req), None, [v]);
    assert Does(w, h, luck, 1) && h(2) == Outcome(UpdateCheck(req, w.load(v.text).value), None, [v]);
    assert Does(w, h, luck, 2) && h(3) == Outcome(UpdateMutate(req, w.load(v.text).value), None, [v]);
    assert Does(w, h, luck, 3);
  }

  lemma WriteSteps(w: World, h: nat -> Outcome, luck: nat -> Luck, k: nat, req: Request, text: string)
    requires Alone(w, h, luck) && Lucky(luck) && h(k).versions != [] && h(k).call == UpdateWrite(req, text)
    ensures h(k + 1).call.UpdateRevision? && h(k + 2).call.UpdateForget? && h(k + 3).call.UpdateUnlock?
    ensures var u := Version(text, luck(k).time);
            h(k + 4) == Outcome(UpdateDone(req, |h(k).versions|, Ok(Revision(u))), None, h(k).versions + [u])
  {
    var u := Version(text, luck(k).time);
    var vs := h(k).versions + [u];
    assert Does(w, h, luck, k) && h(k + 1) == Outcome(UpdateRevision(req), h(k).cache, vs);
    assert Does(w, h, luck, k + 1) && h(k + 2) == Outcome(UpdateForget(req, Revision(u)), h(k).cache, vs);
    assert Does(w, h, luck, k + 2) && h(k + 3) == Outcome(UpdateUnlock(req, Ok(Revision(u))), None, vs);
    assert Does(w, h, luck, k + 3);
  }

  // With two services the first committer does not win: there is a run in which two calls
  // that name the same revision both succeed, although the last version was made of the
  // first one and the update between them is lost.
  lemma TwoServicesLoseUpdate(w: World, v: Version, reqA: Request, reqB: Request, vA: Version, vB: Version)
    returns (r: RunTwo, e: Two)
    requires w.load(v.text).Some? && reqA.expected == reqB.expected == Revision(v)
    requires var a, b := reqA.mutate(w.load(v.text).value), reqB.mutate(w.load(v.text).value);
             a.Some? && b.Some? && w.marshal(a.value) == Some(vA.text) && w.marshal(b.value) == Some(vB.text)
    requires FreshStamp([v], vB) && FreshStamp([v, vB], vA)
    ensures AfterTwo(w, Two(Started(v), Started(v)), r) == Some(e)
    ensures e.a.versions == e.b.versions == [v, vB, vA]
    ensures 0 in e.a.calls && e.a.calls[0] == UpdateDone(reqA, 2, Ok(Revision(vA)))
    ensures 0 in e.b.calls && e.b.calls[0] == UpdateDone(reqB, 1, Ok(Revision(vB)))
  {
    var s0 := Two(Started(v), Started(v));
    var luckA, luckB := (i: nat) => Luck(false, false, vA.mtime), (i: nat) => Luck(false, false, vB.mtime);
    var s: Two;
    r, s := BothBegin(w, s0, v, reqA, reqB);
    r, s := ComesToWrite(w, s0, r, s, luckA, reqA, v, vA.text);
    r, s := UpdatesB(w, s0, r, s, luckB, reqB, v, vB);
    r, e := WritesA(w, s0, r, s, luckA, reqA, [v, vB], vA);
    assert [v, vB] + [vA] == [v, vB, vA];
  }

  lemma BothBegin(w: World, s0: Two, v: Version, reqA: Request, reqB: Request) returns (r: RunTwo, s: Two)
    requires s0 == Two(Started(v), Started(v))
    ensures AfterTwo(w, s0, r) == Some(s)
    ensures s.a == Started(v).(calls := map[0 := UpdateLock(reqA)])
    ensures s.b == Started(v).(calls := map[0 := UpdateLock(reqB)])
  {
    var r1 := Go(Idle, true, BeginUpdate(0, reqA));
    var s1 := Two(Started(v).(calls := map[0 := UpdateLock(reqA)]), Started(v));
    assert AfterTwo(w, s0, Idle) == Some(s0);
    assert AfterTwo(w, s0, r1) == Some(s1);
    r := Go(r1, false, BeginUpdate(0, reqB));
    s := StepTwo(w, s1, false, BeginUpdate(0, reqB));
  }

  // The first service's call up to its write.
  lemma ComesToWrite(w: World, s0: Two, r: RunTwo, s: Two, luck: nat -> Luck, req: Request, v: Version, text: string)
    returns (r': RunTwo, s': Two)
    requires AfterTwo(w, s0, r) == Some(s) && Lucky(luck) && Makes(w, req, v, text)
    requires s.a == Started(v).(calls := map[0 := UpdateLock(req)])
    ensures AfterTwo(w, s0, r') == Some(s') && Stands(s'.a, 0, Outcome(UpdateWrite(req, text), None, [v]))
    ensures s'.b == Share(s'.a, s.b)
  {
    var h := Course(w, Outcome(UpdateLock(req), None, [v]), luck);
    EditSteps(w, h, luck, req, v, text);
    r', s' := GoesAlong(w, s0, r, s, true, 0, luck, h, 4);
  }

  lemma AllSteps(w: World, h: nat -> Outcome, luck: nat -> Luck, req: Request, v: Version, u: Version)
    requires Alone(w, h, luck) && Lucky(luck) && Makes(w, req, v, u.text) && luck(4).time == u.mtime
    requires h(0) == Outcome(UpdateLock(req), None, [v])
    ensures forall i: nat :: 0 < i < 8 ==> !Returned(h(i).call) && !Waiting(h(i).call)
    ensures forall i: nat :: i < 8 && h(i).call.UpdateWrite? ==>
              i == 4 && h(i) == Outcome(UpdateWrite(req, u.text), None, [v])
    ensures h(8) == Outcome(UpdateDone(req, 1, Ok(Revision(u))), None, [v, u])
  {
    EditSteps(w, h, luck, req, v, u.text);
    WriteSteps(w, h, luck, 4, req, u.text);
    assert [v] + [u] == [v, u];
    forall i: nat | i < 8 ensures i in [0, 1, 2, 3, 4, 5, 6, 7] {
    }
  }

  // The second service's call from start to end.
  lemma UpdatesB(w: World, s0: Two, r: RunTwo, s: Two, luck: nat -> Luck, req: Request, v: Version, u: Version)
    returns (r': RunTwo, s': Two)
    requires AfterTwo(w, s0, r) == Some(s) && Lucky(luck) && Makes(w, req, v, u.text) && luck(4).time == u.mtime
    requires Stands(s.b, 0, Outcome(UpdateLock(req), None, [v])) && s.b.writer.None? && s.b.readers == {}
    requires FreshStamp([v], u)
    ensures AfterTwo(w, s0, r') == Some(s')
    ensures Stands(s'.b, 0, Outcome(UpdateDone(req, 1, Ok(Revision(u))), None, [v, u])) && s'.a == Share(s'.b, s.a)
  {
    var h := Course(w, Outcome(UpdateLock(req), None, [v]), luck);
    AllSteps(w, h, luck, req, v, u);
    forall i: nat | i < 8 ensures CanGo(s.b, h(i), luck(i)) {
    }
    r', s' := GoesAlong(w, s0, r, s, false, 0, luck, h, 8);
  }

  // The first service's call from its write on.
  lemma WritesA(w: World, s0: Two, r: RunTwo, s: Two, luck: nat -> Luck, req: Request, versions: seq<Version>,
                u: Version)
    returns (r': RunTwo, s': Two)
    requires AfterTwo(w, s0, r) == Some(s) && Lucky(luck) && luck(0).time == u.mtime && versions != []
    requires Stands(s.a, 0, Outcome(UpdateWrite(req, u.text), None, versions)) && FreshStamp(versions, u)
    ensures AfterTwo(w, s0, r') == Some(s')
    ensures Stands(s'.a, 0, Outcome(UpdateDone(req, |versions|, Ok(Revision(u))), None, versions + [u]))
    ensures s'.b == Share(s'.a, s.b)
  {
    var h := Course(w, Outcome(UpdateWrite(req, u.text), None, versions), luck);
    WriteSteps(w, h, luck, 0, req, u.text);
    r', s' := GoesAlong(w, s0, r, s, true, 0, luck, h, 4);
  }
}
