/** The device's file service: one handle (listing, reading or writing), one receipt of the last write, and the
    tree of files behind it. What each request does is a function of that state; the class FileTask is the
    firmware's flat handle record, changed in place by its handlers. */
module FileService {
  import opened Bytes

  type Path = string

  datatype Node = File(content: seq<byte>, mtime: nat) | Directory

  type Tree = map<Path, Node>

  datatype Status = OK | InvalidArgument | NotFound | NotDirectory | NotFile | ReadOnly | Busy | NoMemory | Io
                  | NotSupported | Conflict | Exists | NotEmpty | NoSpace | HashMismatch

  datatype WriteState = Active | Committed | Aborted

  /** A write stream: what it will replace, what the target's etag was, and the temporary file it fills. The
      bytes committed so far are the contents of that file. */
  datatype Writer = Writer(session: nat, stream: nat, size: nat, target: Path, temp: Path, existed: Option<nat>)

  datatype Handle = NoHandle | Listing(session: nat, stream: nat) | Reading(session: nat, stream: nat, path: Path)
                  | Writing(w: Writer)

  datatype Receipt = Receipt(session: nat, stream: nat, committed: nat, expected: nat, state: WriteState,
                             result: Status)

  datatype Service = Service(tree: Tree, handle: Handle, receipt: Option<Receipt>) {
    /** The temporary file of an open write stream is there. */
    predicate Valid() {
      handle.Writing? ==> handle.w.temp in tree && tree[handle.w.temp].File?
                          && |tree[handle.w.temp].content| <= handle.w.size
    }

    predicate Writes(session: nat, stream: nat) {
      handle.Writing? && handle.w.session == session && handle.w.stream == stream
    }

    function Content(): seq<byte>
      requires Valid() && handle.Writing?
    {
      tree[handle.w.temp].content
    }
  }

  datatype Request = Query | ListOpen(path: Path) | ListNext(stream: nat) | ReadOpen(path: Path)
                   | Read(stream: nat) | Close(stream: nat)
                   | WriteOpen(target: Path, size: nat, ifMatch: Option<nat>, overwrite: bool)
                   | Write(stream: nat, offset: nat, data: seq<byte>)
                   | Commit(stream: nat, digest: seq<byte>) | Abort(stream: nat) | WriteStatus(stream: nat)
                   | Mkdir | Delete | Rename

  datatype Reply = Failed(status: Status) | Done | Opened(stream: nat) | Acked(committed: nat) | Installed
                 | StatusIs(committed: nat, expected: nat, state: WriteState, result: Status)

  /** What the firmware is built on: SHA-256, the etag of a file of some size and time, and the largest part
      a write may carry. */
  datatype Platform = Platform(hash: seq<byte> -> seq<byte>, etag: (nat, nat) -> nat, chunkMax: nat)

  /** What the world answers during one request: the path and capability checks, stat of the target, whether the
      volume can replace files, the names tried for the temporary file and the error of creating it, the stream
      id drawn, the hash engine, what each write to the disk returns and the disk's error, the final steps of a
      commit, whether unlink works, the time, and the tree that a request outside any write stream leaves. */
  datatype World = World(check: Status, lookup: Status, replacing: bool, names: nat -> Path, create: Status,
                         stream: nat, hashing: bool, writes: nat -> int, disk: Status, closing: Status,
                         renaming: Status, restat: Status, unlinks: bool, now: nat, tree: Tree)

  const NAME_ATTEMPTS: nat := 8
  const DIGEST_SIZE: nat := 32

  function Etag(p: Platform, tree: Tree, path: Path): Option<nat> {
    if path in tree && tree[path].File? then Some(p.etag(|tree[path].content|, tree[path].mtime)) else None
  }

  /** The first of the eight names that is free. */
  function FreeName(tree: Tree, names: nat -> Path, attempt: nat): (name: Option<Path>)
    ensures name.Some? ==> name.value !in tree
    decreases NAME_ATTEMPTS - attempt
  {
    if attempt >= NAME_ATTEMPTS then None
    else if names(attempt) !in tree then Some(names(attempt))
    else FreeName(tree, names, attempt + 1)
  }

  // ---------------------------------------------------------------- the requests

  /** Closing a handle takes its temporary file with it. */
  function Closed(s: Service, unlinks: bool): Service {
    s.(handle := NoHandle, tree := if s.handle.Writing? && unlinks then s.tree - {s.handle.w.temp} else s.tree)
  }

  function ReceiptOf(s: Service, state: WriteState, result: Status): Option<Receipt>
    requires s.Valid() && s.handle.Writing?
  {
    Some(Receipt(s.handle.w.session, s.handle.w.stream, |s.Content()|, s.handle.w.size, state, result))
  }

  /** The first check that a new write stream fails. */
  function OpenStatus(p: Platform, s: Service, target: Path, ifMatch: Option<nat>, overwrite: bool, world: World)
    : Status
  {
    if s.handle != NoHandle then Busy
    else if world.check != OK then world.check
    else if world.lookup != OK then world.lookup
    else if target in s.tree && s.tree[target].Directory? then NotFile
    else if target in s.tree && !overwrite then Exists
    else if target in s.tree && overwrite && !world.replacing then NotSupported
    else if ifMatch.Some? && Etag(p, s.tree, target) != ifMatch then Conflict
    else if FreeName(s.tree, world.names, 0).None? then Exists
    else world.create
  }

  function AfterWriteOpen(p: Platform, s: Service, session: nat, r: Request, world: World): (Service, Reply)
    requires r.WriteOpen?
  {
    var status := OpenStatus(p, s, r.target, r.ifMatch, r.overwrite, world);
    if status != OK then (s, Failed(status))
    else
      var temp := FreeName(s.tree, world.names, 0).value;
      var w := Writer(session, world.stream, r.size, r.target, temp, Etag(p, s.tree, r.target));
      if !world.hashing then
        (s.(tree := if world.unlinks then s.tree else s.tree[temp := File([], world.now)]), Failed(Io))
      else (Service(s.tree[temp := File([], world.now)], Writing(w), None), Opened(world.stream))
  }

  /** How many of the remaining bytes the disk takes, call by call from the k-th on, before it fails. */
  function DiskTakes(writes: nat -> int, k: nat, remaining: nat): (n: nat)
    ensures n <= remaining
    decreases remaining
  {
    if remaining == 0 || writes(k) <= 0 then 0
    else if writes(k) >= remaining then remaining
    else writes(k) + DiskTakes(writes, k + 1, remaining - writes(k))
  }

  /** The status reported for a failure. */
  function Fault(status: Status): Status {
    if status == OK then Io else status
  }

  predicate Acceptable(p: Platform, s: Service, session: nat, r: Request)
    requires s.Valid() && r.Write?
  {
    && s.Writes(session, r.stream)
    && 0 < |r.data| <= p.chunkMax
    && r.offset == |s.Content()|
    && |r.data| <= s.handle.w.size - |s.Content()|
  }

  function AfterWrite(p: Platform, s: Service, session: nat, r: Request, world: World): (Service, Reply)
    requires s.Valid() && r.Write?
  {
    if !Acceptable(p, s, session, r) then (s, Failed(InvalidArgument))
    else
      var n := DiskTakes(world.writes, 0, |r.data|);
      var content := s.Content() + r.data[..n];
      var filled := if n == 0 then s.tree else s.tree[s.handle.w.temp := File(content, world.now)];
      if n < |r.data| || !world.hashing then
        var status := if n < |r.data| then Fault(world.disk) else Io;
        (Closed(s.(tree := filled), world.unlinks).(receipt := ReceiptOf(s, Aborted, status)), Failed(status))
      else (s.(tree := filled), Acked(|content|))
  }

  /** The first check that fails before the rename, or the rename's own failure. */
  function CommitStatus(p: Platform, s: Service, digest: seq<byte>, world: World): Status
    requires s.Valid() && s.handle.Writing?
  {
    if |s.Content()| != s.handle.w.size then Conflict
    else if !world.hashing then Io
    else if p.hash(s.Content()) != digest then HashMismatch
    else if world.lookup != OK then world.lookup
    else if Etag(p, s.tree, s.handle.w.target) != s.handle.w.existed
            || (s.handle.w.target in s.tree && s.tree[s.handle.w.target].Directory?) then Conflict
    else if world.disk != OK then world.disk
    else if world.closing != OK then world.closing
    else world.renaming
  }

  /** This commit puts the temporary file in the target's place. */
  predicate Installs(p: Platform, s: Service, session: nat, r: Request, world: World)
    requires s.Valid()
  {
    && r.Commit? && |r.digest| == DIGEST_SIZE && s.Writes(session, r.stream)
    && CommitStatus(p, s, r.digest, world) == OK
  }

  function AfterCommit(p: Platform, s: Service, session: nat, r: Request, world: World): (Service, Reply)
    requires s.Valid() && r.Commit?
  {
    if |r.digest| != DIGEST_SIZE || !s.Writes(session, r.stream) then (s, Failed(InvalidArgument))
    else
      var w := s.handle.w;
      if CommitStatus(p, s, r.digest, world) != OK then
        var status := CommitStatus(p, s, r.digest, world);
        (Closed(s, world.unlinks).(receipt := ReceiptOf(s, Aborted, status)), Failed(status))
      else
        var tree := (s.tree - {w.temp})[w.target := s.tree[w.temp]];
        if world.restat != OK then
          (Service(tree, NoHandle, ReceiptOf(s, Aborted, world.restat)), Failed(world.restat))
        else
          (Service(tree, NoHandle, ReceiptOf(s, Committed, OK)), Installed)
  }

  function AfterAbort(s: Service, session: nat, r: Request, world: World): (Service, Reply)
    requires s.Valid() && r.Abort?
  {
    if !s.Writes(session, r.stream) then (s, Failed(InvalidArgument))
    else (Closed(s, world.unlinks).(receipt := ReceiptOf(s, Aborted, Conflict)), Done)
  }

  function AnswerStatus(s: Service, session: nat, stream: nat): Reply
    requires s.Valid()
  {
    if s.Writes(session, stream) then StatusIs(|s.Content()|, s.handle.w.size, Active, OK)
    else if s.receipt.Some? && s.receipt.value.session == session && s.receipt.value.stream == stream then
      var r := s.receipt.value;
      StatusIs(r.committed, r.expected, r.state, r.result)
    else Failed(NotFound)
  }

  /** One request. Making, deleting and renaming are refused while any handle is open; otherwise they may leave
      any tree. */
  function Process(p: Platform, s: Service, session: nat, r: Request, world: World): (Service, Reply)
    requires s.Valid()
  {
    match r
    case Query => (s, Done)
    case ListOpen(_) =>
      if s.handle != NoHandle then (s, Failed(Busy))
      else if world.check != OK then (s, Failed(world.check))
      else (s.(handle := Listing(session, world.stream)), Opened(world.stream))
    case ListNext(stream) => (s, if s.handle == Listing(session, stream) then Done else Failed(InvalidArgument))
    case ReadOpen(path) =>
      if s.handle != NoHandle then (s, Failed(Busy))
      else if world.check != OK then (s, Failed(world.check))
      else (s.(handle := Reading(session, world.stream, path)), Opened(world.stream))
    case Read(stream) =>
      (s, if s.handle.Reading? && s.handle.session == session && s.handle.stream == stream then Done
          else Failed(InvalidArgument))
    case Close(stream) =>
      if (s.handle.Listing? || s.handle.Reading?) && s.handle.session == session && s.handle.stream == stream
      then (Closed(s, true), Done) else (s, Failed(InvalidArgument))
    case WriteOpen(_, _, _, _) => AfterWriteOpen(p, s, session, r, world)
    case Write(_, _, _) => AfterWrite(p, s, session, r, world)
    case Commit(_, _) => AfterCommit(p, s, session, r, world)
    case Abort(_) => AfterAbort(s, session, r, world)
    case WriteStatus(stream) => (s, AnswerStatus(s, session, stream))
    case Mkdir => Rearranged(s, world)
    case Delete => Rearranged(s, world)
    case Rename => Rearranged(s, world)
  }

  function Rearranged(s: Service, world: World): (Service, Reply) {
    if s.handle != NoHandle then (s, Failed(Busy))
    else if world.check != OK then (s, Failed(world.check))
    else (s.(tree := world.tree), Done)
  }

  /** The end of a session closes its handle and forgets its receipt. */
  function SessionEnded(s: Service, session: nat, unlinks: bool): Service {
    var closes := (match s.handle
                   case NoHandle => false
                   case Listing(at, _) => at == session
                   case Reading(at, _, _) => at == session
                   case Writing(w) => w.session == session);
    var after := if closes then Closed(s, unlinks) else s;
    after.(receipt := if s.receipt.Some? && s.receipt.value.session == session then None else s.receipt)
  }

  // -------------------------------------------------------------------- results

  /** Exactly when a write stream is opened: the target was absent, or a file that may be overwritten, with the etag
      asked for, and nothing else stands in the way. The new stream is empty, and the rest of the tree untouched. */
  lemma OpensIff(p: Platform, s: Service, session: nat, r: Request, world: World)
    requires s.Valid() && r.WriteOpen?
    ensures var (after, reply) := Process(p, s, session, r, world);
            && (reply.Opened? <==>
                  && s.handle == NoHandle && world.check == OK && world.lookup == OK
                  && (r.target in s.tree ==> s.tree[r.target].File? && r.overwrite && world.replacing)
                  && (r.ifMatch.Some? ==> Etag(p, s.tree, r.target) == r.ifMatch)
                  && (exists k: nat :: k < NAME_ATTEMPTS && world.names(k) !in s.tree)
                  && world.create == OK && world.hashing)
            && (reply.Opened? ==>
                  && after.Valid() && after.Writes(session, world.stream) && after.Content() == []
                  && after.handle.w.target == r.target && after.handle.w.size == r.size
                  && after.handle.w.existed == Etag(p, s.tree, r.target)
                  && after.tree - {after.handle.w.temp} == s.tree && after.receipt == None)
            && (!reply.Opened? ==> after.handle == s.handle && after.receipt == s.receipt)
  {
    FreeNameIff(s.tree, world.names, 0);
    var after := Process(p, s, session, r, world).0;
    if Process(p, s, session, r, world).1.Opened? {
      assert after.tree - {after.handle.w.temp} == s.tree;
    }
  }

  lemma {:induction false} FreeNameIff(tree: Tree, names: nat -> Path, attempt: nat)
    requires attempt <= NAME_ATTEMPTS
    ensures FreeName(tree, names, attempt).Some? <==>
            exists k: nat :: attempt <= k < NAME_ATTEMPTS && names(k) !in tree
    decreases NAME_ATTEMPTS - attempt
  {
    if attempt < NAME_ATTEMPTS {
      FreeNameIff(tree, names, attempt + 1);
    }
  }

  /** An opening that fails leaves the tree as it was, or, when the hash engine fails and then the unlink, an empty
      temporary file. */
  lemma FailedOpenLeaves(p: Platform, s: Service, session: nat, r: Request, world: World)
    requires s.Valid() && r.WriteOpen? && !Process(p, s, session, r, world).1.Opened?
    ensures var (after, reply) := Process(p, s, session, r, world);
            && reply.Failed? && after.handle == s.handle && after.receipt == s.receipt
            && (after.tree == s.tree <==>
                  world.unlinks || OpenStatus(p, s, r.target, r.ifMatch, r.overwrite, world) != OK)
            && (after.tree != s.tree ==>
                  exists k: nat :: k < NAME_ATTEMPTS && world.names(k) !in s.tree
                                   && after.tree == s.tree[world.names(k) := File([], world.now)])
  {
    FreeNameFirst(s.tree, world.names, 0);
  }

  lemma {:induction false} FreeNameFirst(tree: Tree, names: nat -> Path, attempt: nat)
    requires attempt <= NAME_ATTEMPTS
    ensures FreeName(tree, names, attempt).Some? ==>
              exists k: nat :: attempt <= k < NAME_ATTEMPTS && names(k) == FreeName(tree, names, attempt).value
                               && forall j: nat :: attempt <= j < k ==> names(j) in tree
    decreases NAME_ATTEMPTS - attempt
  {
    if attempt < NAME_ATTEMPTS && names(attempt) in tree {
      FreeNameFirst(tree, names, attempt + 1);
    }
  }

  /** A commit is refused when the target has become another file, by its etag, or has appeared. */
  lemma ChangedTargetKept(p: Platform, s: Service, session: nat, r: Request, world: World)
    requires s.Valid() && s.handle.Writing? && s.handle.w.target in s.tree
    requires match s.tree[s.handle.w.target]
             case File(content, mtime) => s.handle.w.existed != Some(p.etag(|content|, mtime))
             case Directory => true
    ensures !Installs(p, s, session, r, world)
  {
  }

  /** Calls k to f of the disk, together. */
  function Total(writes: nat -> int, k: nat, f: nat): int
    requires k <= f
    decreases f - k
  {
    if k == f then 0 else writes(k) + Total(writes, k + 1, f)
  }

  /** The disk takes what its calls take until the first that fails, and no more than there is. */
  lemma {:induction false} DiskTakesUntil(writes: nat -> int, k: nat, f: nat, remaining: nat)
    requires k <= f && writes(f) <= 0 && forall j: nat :: k <= j < f ==> writes(j) > 0
    ensures DiskTakes(writes, k, remaining)
         == if Total(writes, k, f) < remaining then Total(writes, k, f) else remaining
    ensures Total(writes, k, f) >= 0
    decreases f - k
  {
    if k < f {
      DiskTakesUntil(writes, k + 1, f, if writes(k) < remaining then remaining - writes(k) else 0);
    }
  }

  /** Exactly which writes are acknowledged, and what becomes of the others: refused, they change nothing; begun and
      failed, they end the stream, with the receipt of what had been acknowledged. */
  lemma WrittenIff(p: Platform, s: Service, session: nat, r: Request, world: World)
    requires s.Valid() && r.Write?
    ensures var (after, reply) := Process(p, s, session, r, world);
            var fits := && s.handle.Writing? && s.handle.w.session == session && s.handle.w.stream == r.stream
                        && 0 < |r.data| <= p.chunkMax && r.offset == |s.Content()|
                        && |s.Content()| + |r.data| <= s.handle.w.size;
            var n := DiskTakes(world.writes, 0, |r.data|);
            && (reply.Acked? <==> fits && n == |r.data| && world.hashing)
            && (reply.Acked? ==> reply.committed == |s.Content()| + |r.data| && after.handle == s.handle
                                 && after.tree == s.tree[s.handle.w.temp := File(s.Content() + r.data, world.now)])
            && (!fits ==> after == s && reply == Failed(InvalidArgument))
            && (fits && !reply.Acked? ==>
                  var status := if n < |r.data| && world.disk != OK then world.disk else Io;
                  && reply == Failed(status) && after.handle == NoHandle
                  && after.receipt == Some(Receipt(session, r.stream, |s.Content()|, s.handle.w.size, Aborted, status))
                  && after.tree == if world.unlinks then s.tree - {s.handle.w.temp}
                                   else if n == 0 then s.tree
                                   else s.tree[s.handle.w.temp := File(s.Content() + r.data[..n], world.now)])
  {
    if r.data != [] {
      assert r.data[..|r.data|] == r.data;
    }
    if s.handle.Writing? {
      var temp, node := s.handle.w.temp, File(s.Content() + r.data[..DiskTakes(world.writes, 0, |r.data|)], world.now);
      assert s.tree[temp := node] - {temp} == s.tree - {temp};
    }
  }

  /** Exactly which commits succeed, and what becomes of a stream whose commit does not. */
  lemma CommittedIff(p: Platform, s: Service, session: nat, r: Request, world: World)
    requires s.Valid() && r.Commit?
    ensures var (after, reply) := Process(p, s, session, r, world);
            var own := |r.digest| == DIGEST_SIZE && s.Writes(session, r.stream);
            && (reply == Installed <==>
                  && own && |s.Content()| == s.handle.w.size && world.hashing && p.hash(s.Content()) == r.digest
                  && world.lookup == OK && world.disk == OK && world.closing == OK && world.renaming == OK
                  && world.restat == OK && Etag(p, s.tree, s.handle.w.target) == s.handle.w.existed
                  && !(s.handle.w.target in s.tree && s.tree[s.handle.w.target].Directory?))
            && (!own ==> after == s && reply == Failed(InvalidArgument))
            && (own ==>
                  && after.handle == NoHandle && after.receipt.Some?
                  && after.receipt.value.committed == |s.Content()| && after.receipt.value.expected == s.handle.w.size
                  && after.receipt.value.result == (if reply.Failed? then reply.status else OK)
                  && (!Installs(p, s, session, r, world) ==>
                        after.tree == if world.unlinks then s.tree - {s.handle.w.temp} else s.tree))
            && (own && |s.Content()| != s.handle.w.size ==> reply == Failed(Conflict))
            && (own && |s.Content()| == s.handle.w.size && world.hashing && p.hash(s.Content()) != r.digest ==>
                  reply == Failed(HashMismatch))
  {
  }

  /** An abort ends the stream it is for, and no other; a status question is answered truly, by the stream or by the
      receipt of the last, and changes nothing. */
  lemma AbortAndStatus(p: Platform, s: Service, session: nat, stream: nat, world: World)
    requires s.Valid()
    ensures var (after, reply) := Process(p, s, session, Abort(stream), world);
            if s.Writes(session, stream) then
              && reply == Done && after.handle == NoHandle
              && after.tree == (if world.unlinks then s.tree - {s.handle.w.temp} else s.tree)
              && after.receipt == Some(Receipt(session, stream, |s.Content()|, s.handle.w.size, Aborted, Conflict))
            else after == s && reply == Failed(InvalidArgument)
    ensures var (after, reply) := Process(p, s, session, WriteStatus(stream), world);
            && after == s
            && if s.Writes(session, stream) then reply == StatusIs(|s.Content()|, s.handle.w.size, Active, OK)
               else if s.receipt.Some? && s.receipt.value.session == session && s.receipt.value.stream == stream then
                 reply == StatusIs(s.receipt.value.committed, s.receipt.value.expected, s.receipt.value.state,
                                   s.receipt.value.result)
               else reply == Failed(NotFound)
  {
  }

  predicate Holds(s: Service, session: nat, stream: nat) {
    match s.handle
    case NoHandle => false
    case Listing(at, of) => at == session && of == stream
    case Reading(at, of, _) => at == session && of == stream
    case Writing(w) => w.session == session && w.stream == stream
  }

  /** There is one handle: while it is open every opening and every rearrangement is refused, and only its own session
      can use or close it. */
  lemma OneHandle(p: Platform, s: Service, session: nat, r: Request, world: World)
    requires s.Valid()
    ensures var (after, reply) := Process(p, s, session, r, world);
            && (s.handle != NoHandle
                && (r.ListOpen? || r.ReadOpen? || r.WriteOpen? || r == Mkdir || r == Delete || r == Rename) ==>
                  after == s && reply == Failed(Busy))
            && (r.Read? || r.ListNext? || r.Close? ==>
                  && (reply == Done || reply == Failed(InvalidArgument))
                  && (reply == Done ==> Holds(s, session, r.stream))
                  && after == if r.Close? && reply == Done then s.(handle := NoHandle) else s)
            && (r.Close? ==> (reply == Done <==> Holds(s, session, r.stream) && !s.handle.Writing?))
            && (r.Read? ==> (reply == Done <==> Holds(s, session, r.stream) && s.handle.Reading?))
            && (r.ListNext? ==> (reply == Done <==> Holds(s, session, r.stream) && s.handle.Listing?))
            && (s.handle == NoHandle && (r.ListOpen? || r.ReadOpen?) ==>
                  if world.check == OK then
                    && reply == Opened(world.stream) && Holds(after, session, world.stream)
                    && after.tree == s.tree && after.receipt == s.receipt
                    && (if r.ListOpen? then after.handle.Listing? else after.handle.Reading?)
                  else after == s && reply == Failed(world.check))
            && (s.handle == NoHandle && (r == Mkdir || r == Delete || r == Rename) ==>
                  if world.check == OK then after == s.(tree := world.tree) && reply == Done
                  else after == s && reply == Failed(world.check))
  {
  }

  /** The end of a session leaves it no handle and no receipt, and takes from others neither. */
  lemma SessionEndClears(s: Service, session: nat, unlinks: bool)
    requires s.Valid()
    ensures var after := SessionEnded(s, session, unlinks);
            && (after.receipt.Some? ==> after.receipt.value.session != session)
            && (match after.handle
                case NoHandle => true
                case Listing(at, _) => at != session
                case Reading(at, _, _) => at != session
                case Writing(w) => w.session != session)
            && (s.handle.Writing? && s.handle.w.session == session && unlinks ==>
                  after.tree == s.tree - {s.handle.w.temp})
            && (match s.handle
                case NoHandle => after.handle == NoHandle && after.tree == s.tree
                case Listing(at, _) => at != session ==> after.handle == s.handle && after.tree == s.tree
                case Reading(at, _, _) => at != session ==> after.handle == s.handle && after.tree == s.tree
                case Writing(w) => w.session != session ==> after.handle == s.handle && after.tree == s.tree)
            && (s.receipt.Some? && s.receipt.value.session != session ==> after.receipt == s.receipt)
  {
  }

  /** While a write stream is open, nothing but its own temporary file changes, except in a commit, and then
      only the target: the file takes the place the target had when the stream was opened, and it is complete,
      has the digest sent, and the target still has the etag seen at the opening. */
  lemma TreeGuarded(p: Platform, s: Service, session: nat, r: Request, world: World)
    requires s.Valid() && s.handle.Writing?
    ensures var w, after := s.handle.w, Process(p, s, session, r, world).0.tree;
            if Installs(p, s, session, r, world) then
              && after == (s.tree - {w.temp})[w.target := s.tree[w.temp]]
              && |s.Content()| == w.size && p.hash(s.Content()) == r.digest
              && Etag(p, s.tree, w.target) == w.existed
            else after - {w.temp} == s.tree - {w.temp}
  {
  }

  /** The temporary file only ever grows by the data of a write at its very end, and stays while the stream is
      open; the stream closes only by its own abort or commit, or by an error of its own write. */
  lemma StreamGuarded(p: Platform, s: Service, session: nat, r: Request, world: World)
    requires s.Valid() && s.handle.Writing?
    ensures var w, after := s.handle.w, Process(p, s, session, r, world).0;
            if after.handle == s.handle then
              && after.Valid()
              && (after.Content() == s.Content()
                  || (r.Write? && s.Writes(session, r.stream) && r.offset == |s.Content()|
                      && after.Content() == s.Content() + r.data))
            else
              && after.handle == NoHandle && session == w.session
              && (r == Abort(w.stream) || (r.Commit? && r.stream == w.stream) || (r.Write? && r.stream == w.stream))
  {
  }

  /** What an aborted receipt does not say. A commit on the open stream whose receipt is aborted has changed the
      rest of the tree, by putting the file in the target's place, exactly when the rename was done and only the
      stat after it failed. (A target that already was that very file shows no change.) */
  lemma AbortedReceipt(p: Platform, s: Service, session: nat, r: Request, world: World)
    requires s.Valid() && r.Commit? && |r.digest| == DIGEST_SIZE && s.Writes(session, r.stream)
    ensures var w, after := s.handle.w, Process(p, s, session, r, world).0;
            var installs := Installs(p, s, session, r, world);
            && after.receipt.Some? && after.receipt.value.session == session && after.receipt.value.stream == r.stream
            && (after.receipt.value.state == Aborted <==> !(installs && world.restat == OK))
            && (installs ==> after.tree == (s.tree - {w.temp})[w.target := s.tree[w.temp]])
            && (w.target != w.temp && !(w.target in s.tree && s.tree[w.target] == s.tree[w.temp])
                && after.receipt.value.state == Aborted ==>
                  (after.tree - {w.temp} != s.tree - {w.temp} <==> installs && world.restat != OK))
            && (!installs ==> after.tree - {w.temp} == s.tree - {w.temp})
  {
    var w, after := s.handle.w, Process(p, s, session, r, world).0;
    if Installs(p, s, session, r, world) && w.target != w.temp {
      assert (after.tree - {w.temp})[w.target] == s.tree[w.temp];
    }
  }

  datatype Event = Handled(session: nat, r: Request, world: World) | Ended(session: nat, unlinks: bool)

  function After(p: Platform, s: Service, e: Event): (after: Service)
    requires s.Valid()
    ensures after.Valid()
  {
    match e
    case Handled(session, r, world) => Process(p, s, session, r, world).0
    case Ended(session, unlinks) => SessionEnded(s, session, unlinks)
  }

  function Run(p: Platform, s: Service, events: seq<Event>): (after: Service)
    requires s.Valid()
    ensures after.Valid()
    decreases |events|
  {
    if events == [] then s else Run(p, After(p, s, events[0]), events[1..])
  }

  /** The stream of s stays open through the events. */
  predicate StaysOpen(p: Platform, s: Service, events: seq<Event>)
    requires s.Valid()
    decreases |events|
  {
    s.handle.Writing? &&
    (events == []
     || (After(p, s, events[0]).handle == s.handle && StaysOpen(p, After(p, s, events[0]), events[1..])))
  }

  /** The data of the writes accepted. */
  function Accepted(p: Platform, s: Service, events: seq<Event>): seq<byte>
    requires s.Valid()
    decreases |events|
  {
    if events == [] then []
    else AcceptedNow(p, s, events[0]) + Accepted(p, After(p, s, events[0]), events[1..])
  }

  function AcceptedNow(p: Platform, s: Service, e: Event): seq<byte>
    requires s.Valid()
  {
    if e.Handled? && e.r.Write? && Process(p, s, e.session, e.r, e.world).1.Acked? then e.r.data else []
  }

  lemma StepFreezes(p: Platform, s: Service, e: Event)
    requires s.Valid() && s.handle.Writing? && After(p, s, e).handle == s.handle
    ensures var after, temp := After(p, s, e), s.handle.w.temp;
            after.tree - {temp} == s.tree - {temp} && after.Content() == s.Content() + AcceptedNow(p, s, e)
  {
    if e.Handled? {
      TreeGuarded(p, s, e.session, e.r, e.world);
    }
  }

  /** As long as a write stream is open, whoever asks for whatever: the tree outside its temporary file is the
      one it was opened on, and the temporary file is what was accepted, in order, once. */
  lemma {:induction false} OpenStreamFreezes(p: Platform, s: Service, events: seq<Event>)
    requires s.Valid() && StaysOpen(p, s, events)
    ensures var after, temp := Run(p, s, events), s.handle.w.temp;
            && after.handle == s.handle
            && after.tree - {temp} == s.tree - {temp}
            && after.Content() == s.Content() + Accepted(p, s, events)
    decreases |events|
  {
    if events == [] {
      assert s.Content() + [] == s.Content();
    } else {
      StepFreezes(p, s, events[0]);
      var next := After(p, s, events[0]);
      OpenStreamFreezes(p, next, events[1..]);
      Assoc(s.Content(), AcceptedNow(p, s, events[0]), Accepted(p, next, events[1..]));
    }
  }
}
