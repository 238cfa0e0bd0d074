/** The session catalog (src/session/catalog.ts) over a file system: what it remembers of each
    session, which sessions have no file yet, and what each file looked like when the daemon
    last refreshed it.  Every method runs between two awaits, on one state of the file system;
    resolving a thread is cut where it waits for a listing. */
module Catalogs {
  import opened Common

  /** A line of a session file. */
  datatype Entry = Entry(kind: string, id: Option<string>, timestamp: Option<string>, cwd: Option<string>)

  datatype File = File(size: nat, mtime: nat, entries: seq<Entry>, name: Option<string>)

  type FileSystem = map<string, File>

  datatype Session = Session(path: string, id: string, cwd: string, name: Option<string>)

  datatype Baseline = Baseline(path: string, size: nat, mtime: nat, last: Option<string>)

  predicate IsHeader(e: Entry) {
    e.kind == "session" && e.id.Some?
  }

  function Header(entries: seq<Entry>): (r: Option<Entry>)
    ensures r.Some? ==> r.value in entries && IsHeader(r.value)
    ensures r == None ==> forall e <- entries :: !IsHeader(e)
  {
    if entries == [] then None
    else if IsHeader(entries[0]) then Some(entries[0])
    else Header(entries[1..])
  }

  function Shown(text: Option<string>): string {
    if text.Some? then text.value else "undefined"
  }

  /** The mark of the last entry that is not a session header. */
  function LastMark(entries: seq<Entry>): Option<string> {
    if entries == [] then None
    else
      var last := entries[|entries| - 1];
      if last.kind != "session" then Some(Shown(last.id) + ":" + last.kind + ":" + Shown(last.timestamp))
      else LastMark(entries[..|entries| - 1])
  }

  /** A file without a header is not a session. */
  function Info(path: string, file: File): Result<Session, Error> {
    match Header(file.entries)
    case None => Err(Foreign(0))
    case Some(h) =>
      Ok(Session(path, if h.id.value != "" then h.id.value else path, if h.cwd.Some? then h.cwd.value else "", file.name))
  }

  /** What a session file says of itself: its first session header gives the id, if that is not empty,
      and the directory; without a header it is no session. */
  lemma {:induction false} InfoMeans(path: string, file: File, k: nat)
    ensures (forall e <- file.entries :: !(e.kind == "session" && e.id.Some?)) <==> Info(path, file).Err?
    ensures k < |file.entries| && file.entries[k].kind == "session" && file.entries[k].id.Some?
            && (forall i :: 0 <= i < k ==> !(file.entries[i].kind == "session" && file.entries[i].id.Some?)) ==>
              var h := file.entries[k];
              Info(path, file) == Ok(Session(path, if h.id.value != "" then h.id.value else path,
                                             if h.cwd.Some? then h.cwd.value else "", file.name))
  {
    if k < |file.entries| {
      FirstHeader(file.entries, k);
    }
  }

  lemma {:induction false} FirstHeader(entries: seq<Entry>, k: nat)
    requires k < |entries|
    ensures entries[k].kind == "session" && entries[k].id.Some?
            && (forall i :: 0 <= i < k ==> !(entries[i].kind == "session" && entries[i].id.Some?)) ==>
              Header(entries) == Some(entries[k])
  {
    if k > 0 {
      assert forall i :: 0 <= i < |entries| - 1 ==> entries[1..][i] == entries[i + 1];
      FirstHeader(entries[1..], k - 1);
    }
  }

  /** The mark is made of the id, the type and the time of the last entry that is no session header. */
  lemma {:induction false} LastMarkMeans(entries: seq<Entry>, k: nat)
    ensures (forall e <- entries :: e.kind == "session") <==> LastMark(entries) == None
    ensures k < |entries| && entries[k].kind != "session" && (forall i :: k < i < |entries| ==> entries[i].kind == "session") ==>
      LastMark(entries) == Some((if entries[k].id.Some? then entries[k].id.value else "undefined")
                                + ":" + entries[k].kind + ":"
                                + (if entries[k].timestamp.Some? then entries[k].timestamp.value else "undefined"))
  {
    if entries != [] {
      var n := |entries| - 1;
      LastMarkMeans(entries[..n], k);
      assert entries == entries[..n] + [entries[n]];
    }
  }

  lemma InfoPath(path: string, file: File)
    ensures Info(path, file).Ok? ==> Info(path, file).value.path == path
  {
  }

  function Sample(path: string, file: File): Baseline {
    Baseline(path, file.size, file.mtime, LastMark(file.entries))
  }

  /** Is the session what its file says right now? */
  predicate ReadFrom(fs: FileSystem, s: Session) {
    s.path in fs && Info(s.path, fs[s.path]) == Ok(s)
  }

  /** Remembering sessions one after the other; the last one of an id stays. */
  function Cached(byId: map<string, Session>, sessions: seq<Session>): (r: map<string, Session>)
    ensures forall k <- r :: k in byId || exists s :: s in sessions && s.id == k && r[k] == s
    ensures forall k <- byId :: k in r
  {
    if sessions == [] then byId
    else
      var last := sessions[|sessions| - 1];
      Cached(byId, sessions[..|sessions| - 1])[last.id := last]
  }

  lemma {:induction false} CachedAt(byId: map<string, Session>, sessions: seq<Session>, id: string)
    ensures var r := Cached(byId, sessions);
      && ((exists s :: s in sessions && s.id == id) ==> id in r && r[id] in sessions && r[id].id == id)
      && ((forall s <- sessions :: s.id != id) ==> (id in r <==> id in byId) && (id in byId ==> r[id] == byId[id]))
  {
    if sessions != [] {
      var n := |sessions| - 1;
      CachedAt(byId, sessions[..n], id);
      assert forall s :: s in sessions <==> s in sessions[..n] || s == sessions[n];
    }
  }

  /** Of several cached sessions of one id the last one is remembered. */
  lemma {:induction false} CachedLast(byId: map<string, Session>, sessions: seq<Session>, k: nat)
    requires k < |sessions| && forall i :: k < i < |sessions| ==> sessions[i].id != sessions[k].id
    ensures sessions[k].id in Cached(byId, sessions) && Cached(byId, sessions)[sessions[k].id] == sessions[k]
    decreases |sessions|
  {
    var n := |sessions| - 1;
    CachedStep(byId, sessions);
    hide Cached;
    if k < n {
      assert sessions[..n][k] == sessions[k] && sessions[n].id != sessions[k].id;
      CachedLast(byId, sessions[..n], k);
    }
  }

  lemma CachedStep(byId: map<string, Session>, sessions: seq<Session>)
    requires sessions != []
    ensures var last := sessions[|sessions| - 1];
      Cached(byId, sessions) == Cached(byId, sessions[..|sessions| - 1])[last.id := last]
  {
  }

  predicate Keyed(byId: map<string, Session>) {
    forall k <- byId :: byId[k].id == k
  }

  lemma {:induction false} CachedKeyed(byId: map<string, Session>, sessions: seq<Session>)
    requires Keyed(byId)
    ensures Keyed(Cached(byId, sessions))
  {
    if sessions != [] {
      CachedKeyed(byId, sessions[..|sessions| - 1]);
    }
  }

  // ---------------------------------------------------------------- remembering and forgetting

  /** What can happen to the catalog's memory of a session. */
  datatype Memo = Keeps(session: Session) | Drops(id: string)

  function After(byId: map<string, Session>, memo: Memo): map<string, Session> {
    match memo
    case Keeps(session) => byId[session.id := session]
    case Drops(id) => byId - {id}
  }

  /** What is remembered after all of it. */
  function Recall(log: seq<Memo>): map<string, Session> {
    if log == [] then map[] else After(Recall(log[..|log| - 1]), log[|log| - 1])
  }

  /** Since then the session was cached, and not dropped afterwards. */
  predicate Recached(log: seq<Memo>, since: nat, id: string) {
    exists i :: since <= i < |log| && log[i].Keeps? && log[i].session.id == id && forall j :: i < j < |log| ==> log[j] != Drops(id)
  }

  lemma RecachedOneMore(log: seq<Memo>, since: nat, id: string)
    requires since < |log|
    ensures var front, memo := log[..|log| - 1], log[|log| - 1];
      Recached(log, since, id) <==>
      (memo.Keeps? && memo.session.id == id) || (Recached(front, since, id) && memo != Drops(id))
  {
    var n := |log| - 1;
    var front, memo := log[..n], log[n];
    if Recached(front, since, id) && memo != Drops(id) {
      var i :| since <= i < n && front[i].Keeps? && front[i].session.id == id && forall j :: i < j < n ==> front[j] != Drops(id);
      assert log[i] == front[i] && forall j :: i < j < |log| ==> log[j] != Drops(id);
    }
    if Recached(log, since, id) && !(memo.Keeps? && memo.session.id == id) {
      var i :| since <= i <= n && log[i].Keeps? && log[i].session.id == id && forall j :: i < j <= n ==> log[j] != Drops(id);
      assert front[i] == log[i] && forall j :: i < j < n ==> front[j] != Drops(id);
    }
  }

  /** A session that was not remembered then is remembered now exactly if it was cached since. */
  lemma {:induction false} RecallSince(log: seq<Memo>, since: nat, id: string)
    requires since <= |log| && id !in Recall(log[..since])
    ensures id in Recall(log) <==> Recached(log, since, id)
    decreases |log|
  {
    if since == |log| {
      assert log[..since] == log;
    } else {
      assert log[..|log| - 1][..since] == log[..since];
      RecallSince(log[..|log| - 1], since, id);
      RecachedOneMore(log, since, id);
      hide Recached;
    }
  }

  lemma RecallOneMore(log: seq<Memo>, memo: Memo)
    ensures Recall(log + [memo]) == After(Recall(log), memo)
  {
    assert (log + [memo])[..|log|] == log;
  }

  function Kept(sessions: seq<Session>): seq<Memo> {
    seq(|sessions|, i requires 0 <= i < |sessions| => Keeps(sessions[i]))
  }

  /** What the synchronous part of resolving a thread comes to. */
  datatype Resolution = Found(session: Session) | Throws(error: Error) | Lists

  class PiSessionCatalog {
    var byId: map<string, Session>
    var baselines: map<string, Baseline>
    var unpersisted: set<string>
    /** The file each baseline was taken from, as it was then. */
    ghost var refreshed: map<string, File>
    /** Everything that ever happened to `byId`. */
    ghost var log: seq<Memo>

    /** Keys are ids; no thread is both unsaved and baselined; what is unsaved is remembered. */
    ghost predicate Valid()
      reads this
    {
      && Keyed(byId) && byId == Recall(log)
      && unpersisted !! baselines.Keys
      && unpersisted <= byId.Keys
      && refreshed.Keys == baselines.Keys
      && forall k <- baselines :: baselines[k] == Sample(baselines[k].path, refreshed[k])
    }

    constructor ()
      ensures Valid() && byId == map[] && baselines == map[] && unpersisted == {}
    {
      byId, baselines, unpersisted, refreshed, log := map[], map[], {}, map[], [];
    }

    /** The session is remembered under its id. */
    method Keep(session: Session)
      requires Keyed(byId) && byId == Recall(log)
      modifies this`byId, this`log
      ensures byId == old(byId)[session.id := session] && Keyed(byId)
      ensures log == old(log) + [Keeps(session)] && byId == Recall(log)
    {
      RecallOneMore(log, Keeps(session));
      byId := byId[session.id := session];
      log := log + [Keeps(session)];
    }

    method Drop(id: string)
      requires Keyed(byId) && byId == Recall(log)
      modifies this`byId, this`log
      ensures byId == old(byId) - {id} && Keyed(byId)
      ensures log == old(log) + [Drops(id)] && byId == Recall(log)
    {
      RecallOneMore(log, Drops(id));
      byId := byId - {id};
      log := log + [Drops(id)];
    }

    method Cache(sessions: seq<Session>)
      requires Valid()
      modifies this`byId, this`log
      ensures Valid() && byId == Cached(old(byId), sessions)
      ensures log == old(log) + Kept(sessions)
    {
      for i := 0 to |sessions|
        invariant byId == Cached(old(byId), sessions[..i]) && old(byId.Keys) <= byId.Keys
        invariant Keyed(byId) && byId == Recall(log) && log == old(log) + Kept(sessions)[..i]
      {
        assert sessions[..i + 1][..i] == sessions[..i];
        Keep(sessions[i]);
      }
      assert sessions[..|sessions|] == sessions;
    }

    /** Resolving a thread, up to the listing.  A path that exists is read.  A remembered
        session is read again from its file; without one it is answered from memory only if
        it was never saved.  Otherwise it is forgotten and the sessions have to be listed. */
    method BeginResolve(name: string, fs: FileSystem) returns (r: Resolution)
      requires Valid()
      modifies this`byId, this`unpersisted, this`log
      ensures Valid() && unpersisted <= old(unpersisted) && old(log) <= log
      ensures name !in fs && name in old(byId) && old(byId)[name].path !in fs ==>
        r == if name in old(unpersisted) then Found(old(byId)[name]) else Lists
      ensures r.Found? ==> r.session.id in byId && byId[r.session.id] == r.session
      ensures r.Found? && name !in fs ==> r.session.id == name
      ensures r.Found? && name in fs ==> r.session.path == name && ReadFrom(fs, r.session)
      ensures r.Found? && !ReadFrom(fs, r.session) ==>
        name in old(unpersisted) && name !in baselines && name in old(byId) && r.session == old(byId)[name]
        && r.session.path !in fs
      ensures r.Lists? ==> name !in fs && name !in byId
      ensures r.Throws? ==> byId == old(byId) && unpersisted == old(unpersisted)
      ensures name in fs ==> r == match Info(name, fs[name]) case Ok(session) => Found(session) case Err(e) => Throws(e)
      ensures name !in fs && name in old(byId) && old(byId)[name].path in fs ==>
        r == match Info(old(byId)[name].path, fs[old(byId)[name].path])
             case Ok(session) => if session.id == name then Found(session) else Lists
             case Err(e) => Throws(e)
      ensures name !in fs && name !in old(byId) ==> r == Lists
    {
      hide Info, Sample, Recall;
      if name in fs {
        InfoPath(name, fs[name]);
        match Info(name, fs[name])
        case Err(e) => return Throws(e);
        case Ok(session) =>
          Keep(session);
          return Found(session);
      }
      if name in byId && byId[name].path in fs {
        InfoPath(byId[name].path, fs[byId[name].path]);
        match Info(byId[name].path, fs[byId[name].path])
        case Err(e) => return Throws(e);
        case Ok(session) =>
          unpersisted := unpersisted - {name};
          Drop(name);
          Keep(session);
          if session.id == name {
            return Found(session);
          }
      } else if name in byId && name in unpersisted {
        return Found(byId[name]);
      }
      Drop(name);
      return Lists;
    }

    /** ... and after it, with the sessions that were found on disk.  `since` is how much had
        happened when the listing began.  A listed session of that id is the answer; without one
        the answer comes from memory, exactly if the session was cached again meanwhile. */
    method EndResolve(name: string, listed: seq<Session>, ghost since: nat) returns (r: Result<Session, Error>)
      requires Valid() && since <= |log| && name !in Recall(log[..since])
      modifies this`byId, this`log
      ensures Valid() && byId == Cached(old(byId), listed) && old(log) <= log
      ensures r.Ok? ==> r.value.id == name
      ensures (exists s :: s in listed && s.id == name) ==> r.Ok? && r.value in listed
      ensures (forall s <- listed :: s.id != name) ==> (r.Ok? <==> name in old(byId))
      ensures name in old(byId) <==> Recached(old(log), since, name)
      ensures (forall s <- listed :: s.id != name) && r.Ok? ==> name in old(byId) && r.value == old(byId)[name]
      ensures r.Err? ==> r.error == NotFound
    {
      CachedAt(byId, listed, name);
      RecallSince(log, since, name);
      Cache(listed);
      if name !in byId {
        return Err(NotFound);
      }
      return Ok(byId[name]);
    }

    /** Resolving while nothing else happens: the session is one that a file has right now, or
        one that was never saved and never baselined.  A thread that ever had a baseline is
        never answered from memory. */
    method Resolve(name: string, fs: FileSystem, listed: seq<Session>) returns (r: Result<Session, Error>)
      requires Valid() && forall s <- listed :: ReadFrom(fs, s)
      modifies this`byId, this`unpersisted, this`log
      ensures Valid()
      ensures r.Ok? ==> ReadFrom(fs, r.value) || (name in old(unpersisted) && name !in baselines && r.value == old(byId)[name])
      ensures r.Ok? && name !in fs ==> r.value.id == name
    {
      var begun := BeginResolve(name, fs);
      match begun
      case Found(session) => r := Ok(session);
      case Throws(error) => r := Err(error);
      case Lists =>
        assert log[..|log|] == log;
        r := EndResolve(name, listed, |log|);
    }

    /** A worker told the daemon about its session. */
    method UpdateFromWorkerState(sessionId: string, sessionFile: string, cwd: Option<string>, name: Option<string>, fs: FileSystem)
      returns (done: Result<(), Error>)
      requires Valid()
      modifies this
      ensures Valid() && old(log) <= log
      ensures done.Err? || sessionId == "" || sessionFile == "" ==>
        byId == old(byId) && baselines == old(baselines) && unpersisted == old(unpersisted)
      ensures done.Err? <==> sessionId != "" && sessionFile != "" && sessionFile in fs && Info(sessionFile, fs[sessionFile]).Err?
      ensures done.Ok? && sessionId != "" && sessionFile != "" ==>
        if sessionFile in fs then
          var info := Info(sessionFile, fs[sessionFile]).value;
          && SavedAs(info.id, sessionFile, fs[sessionFile]) && baselines.Keys == old(baselines.Keys) + {info.id}
          && byId == old(byId)[info.id := Session(sessionFile, info.id, if cwd.Some? then cwd.value else info.cwd,
                                                  if name.Some? then name else info.name)]
        else byId == old(byId)[sessionId := Session(sessionFile, sessionId, if cwd.Some? then cwd.value else "", name)]
             && baselines == old(baselines)
             && unpersisted == if sessionId in baselines then old(unpersisted) else old(unpersisted) + {sessionId}
    {
      if sessionId == "" || sessionFile == "" {
        return Ok(());
      }
      hide Info, Sample;
      if sessionFile in fs {
        match Info(sessionFile, fs[sessionFile])
        case Err(e) => return Err(e);
        case Ok(info) =>
          InfoPath(sessionFile, fs[sessionFile]);
          Saved(info.(cwd := if cwd.Some? then cwd.value else info.cwd, name := if name.Some? then name else info.name),
                fs[sessionFile]);
      } else {
        Unsaved(Session(sessionFile, sessionId, if cwd.Some? then cwd.value else "", name));
      }
      return Ok(());
    }

    /** The session has a file: it is remembered, no longer unsaved, and its baseline is taken. */
    ghost predicate SavedAs(id: string, path: string, file: File)
      reads this
    {
      && id in byId && byId[id].path == path && id !in unpersisted
      && id in baselines && baselines[id] == Sample(path, file) && id in refreshed && refreshed[id] == file
    }

    method Saved(session: Session, file: File)
      requires Valid()
      modifies this
      ensures Valid() && SavedAs(session.id, session.path, file) && baselines.Keys == old(baselines.Keys) + {session.id}
      ensures byId == old(byId)[session.id := session]
      ensures log == old(log) + [Keeps(session)]
    {
      Keep(session);
      unpersisted := unpersisted - {session.id};
      baselines := baselines[session.id := Sample(session.path, file)];
      refreshed := refreshed[session.id := file];
    }

    /** There is no file yet, or no longer: only a thread that never had a baseline counts as unsaved. */
    method Unsaved(session: Session)
      requires Valid()
      modifies this`byId, this`unpersisted, this`log
      ensures Valid() && byId == old(byId)[session.id := session]
      ensures unpersisted == if session.id in baselines then old(unpersisted) else old(unpersisted) + {session.id}
      ensures log == old(log) + [Keeps(session)]
    {
      Keep(session);
      if session.id !in baselines {
        unpersisted := unpersisted + {session.id};
      }
    }

    /** What the pool asks before it gives a worker away. */
    method IsPersisted(thread: string, fs: FileSystem) returns (yes: bool)
      ensures yes <==> thread in byId && byId[thread].path in fs
    {
      yes := thread in byId && byId[thread].path in fs;
    }

    /** Passes exactly when size, modification time and last entry are those of the last refresh. */
    method AssertUnchanged(thread: string, fs: FileSystem) returns (done: Result<(), Error>)
      requires Valid()
      ensures thread !in baselines ==> done.Ok?
      ensures thread in baselines ==>
        var path, before := baselines[thread].path, refreshed[thread];
        done.Ok? <==> path in fs && fs[path].size == before.size && fs[path].mtime == before.mtime
                      && LastMark(fs[path].entries) == LastMark(before.entries)
      ensures done.Err? ==> done.error == ExternalWriterDetected
    {
      if thread !in baselines {
        return Ok(());
      }
      var baseline := baselines[thread];
      if baseline.path !in fs {
        return Err(ExternalWriterDetected);
      }
      var current := Sample(baseline.path, fs[baseline.path]);
      if current.size != baseline.size || current.mtime != baseline.mtime || current.last != baseline.last {
        return Err(ExternalWriterDetected);
      }
      return Ok(());
    }
  }

  /** A thread that had a file and a baseline is resolved after its file has vanished.  While the
      sessions are listed the service refreshes the thread from its worker, and the answer comes
      from memory: a session without a file. */
  method VanishedIsAnswered() returns (r: Result<Session, Error>, baselined: bool)
    ensures baselined && r == Ok(Session("/s.jsonl", "t", "", None))
  {
    var catalog := new PiSessionCatalog();
    var header := Entry("session", Some("t"), None, None);
    var file := File(1, 1, [header], None);
    assert Header(file.entries) == Some(header);
    var _ := catalog.UpdateFromWorkerState("t", "/s.jsonl", None, None, map["/s.jsonl" := file]);
    baselined := "t" in catalog.baselines;
    var gone: FileSystem := map[];
    var begun := catalog.BeginResolve("t", gone);
    assert begun == Lists;
    ghost var since := |catalog.log|;
    ghost var before := catalog.log;
    var _ := catalog.UpdateFromWorkerState("t", "/s.jsonl", None, None, gone);
    assert catalog.log[..since] == before;
    r := catalog.EndResolve("t", [], since);
  }

  predicate SameFile(path: string, before: File, fs: FileSystem) {
    path in fs && fs[path].size == before.size && fs[path].mtime == before.mtime
    && LastMark(fs[path].entries) == LastMark(before.entries)
  }

  /** Appending a proper entry with a new mark is noticed even when size and time are forged. */
  lemma AppendIsNoticed(path: string, before: File, e: Entry, size: nat, mtime: nat)
    requires e.kind != "session"
    requires LastMark(before.entries) != Some(Shown(e.id) + ":" + e.kind + ":" + Shown(e.timestamp))
    ensures !SameFile(path, before, map[path := File(size, mtime, before.entries + [e], before.name)])
  {
    var entries := before.entries + [e];
    assert entries[|entries| - 1] == e;
  }
}
