/** The firmware's file task: the flat handle record and the receipt, changed in place, refining FileService. */
module FileTask {
  import opened Bytes
  import opened FileService

  datatype Kind = KindNone | KindList | KindRead | KindWrite

  /** The handle record; hashed is what the running hash has been fed. */
  datatype Record = Record(kind: Kind, session: nat, stream: nat, directory: bool, fd: Option<Path>, size: nat,
                           committed: nat, originalEtag: nat, targetExisted: bool, hashActive: bool,
                           hashed: seq<byte>, targetPath: Path, tempPath: Option<Path>)

  const BLANK: Record := Record(KindNone, 0, 0, false, None, 0, 0, 0, false, false, [], [], None)

  /** The directory is open iff the handle lists, the descriptor iff it reads or writes, the temporary file is
      there iff it writes, and then both the file and the running hash hold exactly the committed bytes. */
  predicate Coherent(h: Record, tree: Tree) {
    && (h.directory <==> h.kind == KindList)
    && (h.fd.Some? <==> h.kind == KindRead || h.kind == KindWrite)
    && (h.tempPath.Some? <==> h.kind == KindWrite)
    && (h.hashActive <==> h.kind == KindWrite)
    && (h.kind == KindWrite ==>
          && h.fd == h.tempPath && h.tempPath.value in tree && tree[h.tempPath.value].File?
          && tree[h.tempPath.value].content == h.hashed && |h.hashed| == h.committed <= h.size)
  }

  function Meaning(h: Record, tree: Tree): (handle: Handle)
    requires Coherent(h, tree)
    ensures handle.Writing? ==> handle.w.temp in tree && tree[handle.w.temp].File?
                                && |tree[handle.w.temp].content| <= handle.w.size
  {
    match h.kind
    case KindNone => NoHandle
    case KindList => Listing(h.session, h.stream)
    case KindRead => Reading(h.session, h.stream, h.fd.value)
    case KindWrite =>
      Writing(Writer(h.session, h.stream, h.size, h.targetPath, h.tempPath.value,
                     if h.targetExisted then Some(h.originalEtag) else None))
  }

  class Task {
    const p: Platform
    var tree: Tree
    var h: Record
    var receipt: Option<Receipt>

    ghost predicate Valid()
      reads this
    {
      Coherent(h, tree)
    }

    ghost function State(): (s: Service)
      requires Valid()
      reads this
      ensures s.Valid()
    {
      Service(tree, Meaning(h, tree), receipt)
    }

    constructor (p: Platform, tree: Tree)
      ensures Valid() && State() == Service(tree, NoHandle, None) && this.p == p
    {
      this.p, this.tree, h, receipt := p, tree, BLANK, None;
    }

    /** Takes a handle in any state of construction; only a writing one loses its temporary file. */
    method CloseHandle(unlinks: bool)
      modifies this`tree, this`h
      ensures h == BLANK
      ensures tree == if old(h).kind == KindWrite && old(h).tempPath.Some? && unlinks
                      then old(tree) - {old(h).tempPath.value} else old(tree)
    {
      if h.kind == KindWrite && h.tempPath.Some? {
        if unlinks {
          tree := tree - {h.tempPath.value};
        }
      }
      h := BLANK;
    }

    method SetReceipt(state: WriteState, result: Status)
      modifies this`receipt
      ensures receipt == Some(Receipt(h.session, h.stream, h.committed, h.size, state, result))
    {
      receipt := Some(Receipt(h.session, h.stream, h.committed, h.size, state, result));
    }

    /** Tries the names one after the other; creating is exclusive. */
    method CreateTemp(names: nat -> Path, create: Status, now: nat) returns (status: Status)
      requires h.kind == KindNone && h.fd == None
      modifies this`tree, this`h
      ensures status == if FreeName(old(tree), names, 0).Some? then create else Exists
      ensures h == old(h).(tempPath := h.tempPath, fd := h.fd)
      ensures status == OK ==> h.fd == h.tempPath == FreeName(old(tree), names, 0)
      ensures status == OK ==> tree == old(tree)[h.tempPath.value := File([], now)]
      ensures status != OK ==> h.fd == None && tree == old(tree)
    {
      var attempt := 0;
      while attempt < NAME_ATTEMPTS
        invariant attempt <= NAME_ATTEMPTS
        invariant FreeName(tree, names, attempt) == FreeName(old(tree), names, 0)
        invariant tree == old(tree) && h == old(h).(tempPath := h.tempPath)
      {
        h := h.(tempPath := Some(names(attempt)));
        if names(attempt) !in tree {
          status := create;
          if status == OK {
            tree := tree[names(attempt) := File([], now)];
            h := h.(fd := h.tempPath);
          }
          return;
        }
        attempt := attempt + 1;
      }
      status := Exists;
    }

    method CurrentEtag(path: Path) returns (etag: Option<nat>)
      ensures etag == Etag(p, tree, path)
    {
      etag := if path in tree && tree[path].File? then Some(p.etag(|tree[path].content|, tree[path].mtime)) else None;
    }

    method HandleWriteOpen(session: nat, r: Request, world: World) returns (reply: Reply)
      requires Valid() && r.WriteOpen?
      modifies this
      ensures Valid() && (State(), reply) == AfterWriteOpen(p, old(State()), session, r, world)
    {
      if h.kind != KindNone {
        return Failed(Busy);
      }
      var status := CheckOpen(r, world);
      var etag := CurrentEtag(r.target);
      if status == OK {
        h := h.(targetPath := r.target);
        status := CreateTemp(world.names, world.create, world.now);
      }
      if status == OK {
        status := StartWriting(session, r, world, etag);
      }
      if status == OK {
        receipt := None;
        reply := Opened(h.stream);
      } else {
        ghost var before := h;
        CloseHandle(world.unlinks);
        assert before.kind == KindWrite && world.unlinks ==> tree == old(tree);
        reply := Failed(status);
      }
    }

    /** The temporary file is there; the handle becomes a writing one, if the hash engine starts. */
    method StartWriting(session: nat, r: Request, world: World, etag: Option<nat>) returns (status: Status)
      requires r.WriteOpen? && h.fd == h.tempPath && h.tempPath.Some? && !h.directory && h.targetPath == r.target
      requires h.tempPath.value in tree && tree[h.tempPath.value] == File([], world.now)
      modifies this`h
      ensures status == if world.hashing then OK else Io
      ensures h.kind == KindWrite && h.tempPath == old(h.tempPath)
      ensures status == OK ==> Coherent(h, tree)
      ensures status == OK ==>
                Meaning(h, tree) == Writing(Writer(session, world.stream, r.size, r.target, h.tempPath.value, etag))
      ensures status == OK ==> h.stream == world.stream
    {
      h := h.(kind := KindWrite, session := session, stream := world.stream, size := r.size, committed := 0,
              targetExisted := etag.Some?, originalEtag := if etag.Some? then etag.value else 0, hashed := [],
              hashActive := world.hashing);
      status := if h.hashActive then OK else Io;
    }

    method CheckOpen(r: Request, world: World) returns (status: Status)
      requires Valid() && h.kind == KindNone && r.WriteOpen?
      ensures status != OK ==> OpenStatus(p, State(), r.target, r.ifMatch, r.overwrite, world) == status
      ensures status == OK ==>
                OpenStatus(p, State(), r.target, r.ifMatch, r.overwrite, world)
                == if FreeName(tree, world.names, 0).None? then Exists else world.create
    {
      status := world.check;
      if status == OK {
        status := world.lookup;
      }
      var present := r.target in tree;
      if status == OK && present && tree[r.target].Directory? {
        status := NotFile;
      }
      if status == OK && present && !r.overwrite {
        status := Exists;
      }
      if status == OK && present && r.overwrite && !world.replacing {
        status := NotSupported;
      }
      var etag := CurrentEtag(r.target);
      if status == OK && r.ifMatch.Some? && (!present || etag != r.ifMatch) {
        status := Conflict;
      }
    }

    /** Writes data behind what the file holds, however few bytes each call takes. */
    method WriteAll(data: seq<byte>, world: World) returns (status: Status)
      requires Valid() && h.kind == KindWrite
      modifies this`tree
      ensures (var n := DiskTakes(world.writes, 0, |data|);
               && status == (if n == |data| then OK else Fault(world.disk))
               && tree == if n == 0 then old(tree)
                          else old(tree)[h.tempPath.value := File(h.hashed + data[..n], world.now)])
    {
      var temp := h.tempPath.value;
      var total, calls: nat := 0, 0;
      status := OK;
      while total < |data|
        invariant total <= |data|
        invariant total + DiskTakes(world.writes, calls, |data| - total) == DiskTakes(world.writes, 0, |data|)
        invariant total == 0 ==> tree == old(tree)
        invariant total > 0 ==> tree == old(tree)[temp := File(h.hashed + data[..total], world.now)]
      {
        var written := world.writes(calls);
        if written <= 0 {
          status := Fault(world.disk);
          return;
        }
        var end := if written <= |data| - total then total + written else |data|;
        assert h.hashed + data[..total] + data[total..end] == h.hashed + data[..end];
        assert total == 0 ==> tree[temp].content == h.hashed + data[..total];
        tree := tree[temp := File(tree[temp].content + data[total..end], world.now)];
        total, calls := end, calls + 1;
      }
    }

    method HandleWrite(session: nat, r: Request, world: World) returns (reply: Reply)
      requires Valid() && r.Write?
      modifies this
      ensures Valid() && (State(), reply) == AfterWrite(p, old(State()), session, r, world)
    {
      if r.data == [] || h.kind != KindWrite || h.session != session || h.stream != r.stream {
        return Failed(InvalidArgument);
      }
      if |r.data| > p.chunkMax || r.offset != h.committed || h.committed > h.size
         || |r.data| > h.size - h.committed {
        return Failed(InvalidArgument);
      }
      ghost var temp := h.tempPath.value;
      var status := WriteAll(r.data, world);
      if status == OK && !world.hashing {
        status := Io;
      }
      if status != OK {
        SetReceipt(Aborted, status);
        CloseHandle(world.unlinks);
        reply := Failed(status);
      } else {
        assert r.data[..|r.data|] == r.data;
        h := h.(hashed := h.hashed + r.data, committed := h.committed + |r.data|);
        reply := Acked(h.committed);
      }
    }

    method HandleCommit(session: nat, r: Request, world: World) returns (reply: Reply)
      requires Valid() && r.Commit?
      modifies this
      ensures Valid() && (State(), reply) == AfterCommit(p, old(State()), session, r, world)
    {
      if |r.digest| != DIGEST_SIZE || h.kind != KindWrite || h.session != session || h.stream != r.stream {
        return Failed(InvalidArgument);
      }
      var status := CheckCommit(r.digest, world);
      h := h.(fd := None);
      if status == OK && world.closing != OK {
        status := world.closing;
      }
      if status == OK && world.renaming != OK {
        status := world.renaming;
      }
      if status == OK {
        Rename();
        status := world.restat;
      }
      SetReceipt(if status == OK then Committed else Aborted, status);
      reply := if status == OK then Installed else Failed(status);
      CloseHandle(world.unlinks);
    }

    method Rename()
      requires h.tempPath.Some? && h.tempPath.value in tree
      modifies this`tree, this`h
      ensures tree == (old(tree) - {old(h).tempPath.value})[old(h).targetPath := old(tree)[old(h).tempPath.value]]
      ensures h == old(h).(tempPath := None)
    {
      tree := (tree - {h.tempPath.value})[h.targetPath := tree[h.tempPath.value]];
      h := h.(tempPath := None);
    }

    /** The checks of a commit before its file is closed. */
    method CheckCommit(digest: seq<byte>, world: World) returns (status: Status)
      requires Valid() && h.kind == KindWrite
      modifies this`h
      ensures h == old(h).(hashActive := h.hashActive)
      ensures status != OK ==> CommitStatus(p, old(State()), digest, world) == status
      ensures status == OK ==>
                CommitStatus(p, old(State()), digest, world)
                == if world.closing != OK then world.closing else world.renaming
    {
      status := OK;
      if h.committed != h.size {
        status := Conflict;
      }
      if status == OK {
        if world.hashing {
          h := h.(hashActive := false);
        } else {
          status := Io;
        }
      }
      if status == OK && p.hash(h.hashed) != digest {
        status := HashMismatch;
      }
      if status == OK {
        status := world.lookup;
      }
      var present := h.targetPath in tree;
      var etag := CurrentEtag(h.targetPath);
      if status == OK && (present != h.targetExisted || (present && etag != Some(h.originalEtag))) {
        status := Conflict;
      }
      if status == OK {
        status := world.disk;
      }
    }

    method HandleAbort(session: nat, r: Request, world: World) returns (reply: Reply)
      requires Valid() && r.Abort?
      modifies this
      ensures Valid() && (State(), reply) == AfterAbort(old(State()), session, r, world)
    {
      if h.kind != KindWrite || h.session != session || h.stream != r.stream {
        return Failed(InvalidArgument);
      }
      SetReceipt(Aborted, Conflict);
      CloseHandle(world.unlinks);
      reply := Done;
    }

    method HandleWriteStatus(session: nat, stream: nat) returns (reply: Reply)
      requires Valid()
      ensures reply == AnswerStatus(State(), session, stream)
    {
      if h.kind == KindWrite && h.session == session && h.stream == stream {
        reply := StatusIs(h.committed, h.size, Active, OK);
      } else if receipt.Some? && receipt.value.session == session && receipt.value.stream == stream {
        reply := StatusIs(receipt.value.committed, receipt.value.expected, receipt.value.state, receipt.value.result);
      } else {
        reply := Failed(NotFound);
      }
    }

    /** Opening a listing or a file for reading. */
    method HandleOpen(session: nat, r: Request, world: World) returns (reply: Reply)
      requires Valid() && (r.ListOpen? || r.ReadOpen?)
      modifies this`tree, this`h
      ensures Valid() && (State(), reply) == Process(p, old(State()), session, r, world)
    {
      if h.kind != KindNone {
        return Failed(Busy);
      }
      if world.check != OK {
        CloseHandle(world.unlinks);
        return Failed(world.check);
      }
      if r.ListOpen? {
        h := h.(directory := true, kind := KindList);
      } else {
        h := h.(fd := Some(r.path), kind := KindRead);
      }
      h := h.(session := session, stream := world.stream);
      reply := Opened(h.stream);
    }

    method HandleClose(session: nat, stream: nat) returns (reply: Reply)
      requires Valid()
      modifies this`tree, this`h
      ensures Valid()
      ensures forall world :: (State(), reply) == Process(p, old(State()), session, Close(stream), world)
    {
      if h.kind == KindNone || h.kind == KindWrite || h.session != session || h.stream != stream {
        return Failed(InvalidArgument);
      }
      CloseHandle(true);
      reply := Done;
    }

    method EndSession(session: nat, unlinks: bool)
      requires Valid()
      modifies this
      ensures Valid() && State() == SessionEnded(old(State()), session, unlinks)
    {
      if h.kind != KindNone && h.session == session {
        CloseHandle(unlinks);
      }
      if receipt.Some? && receipt.value.session == session {
        receipt := None;
      }
    }

    method ProcessWork(session: nat, r: Request, world: World) returns (reply: Reply)
      requires Valid()
      modifies this
      ensures Valid() && (State(), reply) == Process(p, old(State()), session, r, world)
    {
      match r
      case Query => reply := Done;
      case ListOpen(_) => reply := HandleOpen(session, r, world);
      case ReadOpen(_) => reply := HandleOpen(session, r, world);
      case ListNext(stream) =>
        reply := if h.kind == KindList && h.session == session && h.stream == stream then Done
                 else Failed(InvalidArgument);
      case Read(stream) =>
        reply := if h.kind == KindRead && h.session == session && h.stream == stream then Done
                 else Failed(InvalidArgument);
      case Close(stream) => reply := HandleClose(session, stream);
      case WriteOpen(_, _, _, _) => reply := HandleWriteOpen(session, r, world);
      case Write(_, _, _) => reply := HandleWrite(session, r, world);
      case Commit(_, _) => reply := HandleCommit(session, r, world);
      case Abort(_) => reply := HandleAbort(session, r, world);
      case WriteStatus(stream) => reply := HandleWriteStatus(session, stream);
      case Mkdir => reply := Rearrange(world);
      case Delete => reply := Rearrange(world);
      case Rename => reply := Rearrange(world);
    }

    method Rearrange(world: World) returns (reply: Reply)
      requires Valid()
      modifies this`tree
      ensures Valid() && (State(), reply) == Rearranged(old(State()), world)
    {
      var status := if h.kind == KindNone then world.check else Busy;
      if status == OK {
        tree := world.tree;
        reply := Done;
      } else {
        reply := Failed(status);
      }
    }
  }
}
