// The receiving side of the file transfer: one PUT at a time on the drop directory.

module Receiver {
  import opened Basics
  import opened DropFolder

  /** SHA-256 as an injective function of the content; other values are digests of no file. */
  datatype Digest = Sha(content: seq<byte>) | NoPreimage(tag: nat)

  /** Failures of the file system during a PUT. */
  datatype Fault = NoFault | TruncateFails | OpenFails | HashFails | RenameFails

  /** A PUT with a sanitised name; None is an unparsable header. body holds the bytes that arrive, and
      interrupted says that the connection breaks after them. */
  datatype Put = Put(
    name: string,
    total: Option<int>,
    offset: Option<int>,
    sum: Option<Digest>,
    body: seq<byte>,
    interrupted: bool,
    fault: Fault)

  datatype Reply =
    | BadRequest
    | TooLarge
    | Conflict(held: nat)
    | ServerError
    | ChecksumMismatch
    | Progress(offset: int, complete: bool)

  /** stored is the name under which the PUT delivered a file. */
  datatype Outcome = Outcome(files: Files, reply: Reply, stored: Option<string>)

  function Held(files: Files, name: string): seq<byte> {
    if PartName(name) in files then files[PartName(name)] else []
  }

  /** Bytes of the body that are stored: the limit counts from the size before any truncation. */
  function Taken(put: Put, cur: nat): seq<byte>
    requires put.total.Some?
  {
    var room := put.total.value - cur;
    if room <= 0 then [] else if room <= |put.body| then put.body[..room] else put.body
  }

  function Cut(put: Put, cur: nat): bool
    requires put.total.Some?
  {
    put.interrupted && |put.body| < put.total.value - cur
  }

  predicate Rejected(maxSize: int, put: Put) {
    || put.total.None? || put.total.value < 0
    || (maxSize > 0 && put.total.value > maxSize)
    || put.sum.None?
    || put.offset.None? || put.offset.value < 0
  }

  /** The ".part" content after the body has been appended. */
  function Grown(files: Files, put: Put): seq<byte>
    requires put.total.Some? && put.offset.Some? && 0 <= put.offset.value <= |Held(files, put.name)|
  {
    Held(files, put.name)[..put.offset.value] + Taken(put, |Held(files, put.name)|)
  }

  function Serve(maxSize: int, files: Files, put: Put): Outcome {
    if Rejected(maxSize, put) then
      Outcome(files,
              if put.total.Some? && put.total.value >= 0 && maxSize > 0 && put.total.value > maxSize
              then TooLarge else BadRequest, None)
    else
      var part := PartName(put.name);
      var cur := |Held(files, put.name)|;
      if put.offset.value > cur then Outcome(files, Conflict(cur), None)
      else if put.offset.value < cur && put.fault == TruncateFails then Outcome(files, ServerError, None)
      else
        var kept := Held(files, put.name)[..put.offset.value];
        if put.fault == OpenFails then
          Outcome(if part in files then files[part := kept] else files, ServerError, None)
        else
          Finish(files[part := Grown(files, put)], put, cur + |Taken(put, cur)|, Cut(put, cur))
  }

  /** After the copy: report progress, or verify the digest and move the file to its final name. */
  function Finish(files: Files, put: Put, newSize: int, cut: bool): Outcome
    requires put.total.Some? && put.sum.Some? && PartName(put.name) in files
  {
    var part := PartName(put.name);
    if cut || newSize < put.total.value then Outcome(files, Progress(newSize, false), None)
    else if put.fault == HashFails then Outcome(files, ServerError, None)
    else if Sha(files[part]) != put.sum.value then Outcome(files - {part}, ChecksumMismatch, None)
    else if put.fault == RenameFails then Outcome(files, ServerError, None)
    else
      var final := FinalName(files, put.name);
      Outcome((files - {part})[final := files[part]], Progress(put.total.value, true), Some(final))
  }

  /** A PUT of everything from the offset on, without failures. */
  function Full(name: string, source: seq<byte>, offset: nat): Put
    requires offset <= |source|
  {
    Put(name, Some(|source|), Some(offset), Some(Sha(source)), source[offset..], false, NoFault)
  }

  /** The receiver's state is its drop directory. */
  class Receiver {
    const maxSize: int
    var files: Files

    constructor (maxSize: int, files: Files)
      ensures this.maxSize == maxSize && this.files == files
    {
      this.maxSize, this.files := maxSize, files;
    }

    function PartSize(name: string): nat
      reads this
    {
      |Held(files, name)|
    }

    /** io.Copy through a LimitReader: at most room bytes, none for a negative room. */
    method Append(part: string, body: seq<byte>, room: int) returns (written: nat)
      requires part in files
      modifies this
      ensures written == (if room <= 0 then 0 else if room <= |body| then room else |body|)
      ensures files == old(files)[part := old(files)[part] + body[..written]]
    {
      written := 0;
      while written < room && written < |body|
        invariant written <= |body| && (written == 0 || written <= room)
        invariant part in files && files[part] == old(files)[part] + body[..written]
        invariant files == old(files)[part := files[part]]
      {
        files := files[part := files[part] + [body[written]]];
        written := written + 1;
      }
    }

    /** Truncate on a rewind, then open ".part" and append the body; None when the file system fails. */
    method StoreBody(put: Put, cur: nat) returns (written: Option<nat>)
      requires put.total.Some? && put.offset.Some? && 0 <= put.offset.value <= cur == |Held(files, put.name)|
      modifies this
      ensures written.Some? ==>
                && written.value == |Taken(put, cur)|
                && files == old(files)[PartName(put.name) := Grown(old(files), put)]
      ensures written.None? <==>
                (put.offset.value < cur && put.fault == TruncateFails) || put.fault == OpenFails
      ensures written.None? ==>
                files == if put.fault == OpenFails && PartName(put.name) in old(files)
                         then old(files)[PartName(put.name) := Held(old(files), put.name)[..put.offset.value]]
                         else old(files)
    {
      var part, offset := PartName(put.name), put.offset.value;
      if offset < cur {
        if put.fault == TruncateFails {
          return None;
        }
        files := files[part := files[part][..offset]];
      }
      assert Held(files, put.name) == Held(old(files), put.name)[..offset];
      assert part in files ==> files == old(files)[part := Held(files, put.name)];
      if put.fault == OpenFails {
        return None;
      }
      if part !in files {
        files := files[part := []];
      }
      var n := Append(part, put.body, put.total.value - cur);
      assert put.body[..n] == Taken(put, cur);
      written := Some(n);
    }

    method Complete(put: Put, newSize: int, cut: bool) returns (reply: Reply, stored: Option<string>)
      requires put.total.Some? && put.sum.Some? && PartName(put.name) in files
      modifies this
      ensures Outcome(files, reply, stored) == Finish(old(files), put, newSize, cut)
    {
      var part := PartName(put.name);
      if cut || newSize < put.total.value {
        return Progress(newSize, false), None;
      }
      if put.fault == HashFails {
        return ServerError, None;
      }
      if Sha(files[part]) != put.sum.value {
        files := files - {part};
        return ChecksumMismatch, None;
      }
      var final := UniquePath(files, put.name);
      if put.fault == RenameFails {
        return ServerError, None;
      }
      var content := files[part];
      files := (files - {part})[final := content];
      return Progress(put.total.value, true), Some(final);
    }

    /** handlePut, holding the name's gate. */
    method HandlePut(put: Put) returns (reply: Reply, stored: Option<string>)
      modifies this
      ensures Outcome(files, reply, stored) == Serve(maxSize, old(files), put)
    {
      if put.total.None? || put.total.value < 0 {
        return BadRequest, None;
      }
      if maxSize > 0 && put.total.value > maxSize {
        return TooLarge, None;
      }
      if put.sum.None? || put.offset.None? || put.offset.value < 0 {
        return BadRequest, None;
      }
      var cur := PartSize(put.name);
      if put.offset.value > cur {
        return Conflict(cur), None;
      }
      var written := StoreBody(put, cur);
      if written.None? {
        return ServerError, None;
      }
      // cur was not brought up to date after a truncation
      var cut := put.interrupted && written.value < put.total.value - cur;
      assert cut == Cut(put, cur);
      reply, stored := Complete(put, cur + written.value, cut);
    }
  }

  // ----- Which reply when -----

  /** The announced size exceeds a limit that is set. */
  predicate Oversize(maxSize: int, put: Put) {
    put.total.Some? && put.total.value >= 0 && maxSize > 0 && put.total.value > maxSize
  }

  /** A size is announced that is no size, or one within the limit with a digest or offset that is none. */
  predicate Malformed(maxSize: int, put: Put) {
    || put.total.None? || put.total.value < 0
    || (!(maxSize > 0 && put.total.value > maxSize)
        && (put.sum.None? || put.offset.None? || put.offset.value < 0))
  }

  /** An upload that announces more than the limit is refused as too large, and no other is; neither it nor a
      malformed one changes anything or delivers. */
  lemma RefusalsIff(maxSize: int, files: Files, put: Put)
    ensures var o := Serve(maxSize, files, put);
            && (o.reply == TooLarge <==>
                  put.total.Some? && put.total.value >= 0 && maxSize > 0 && put.total.value > maxSize)
            && (o.reply == BadRequest <==> Malformed(maxSize, put))
            && (o.reply == TooLarge || o.reply == BadRequest ==> o.files == files && o.stored == None)
  {
  }

  /** A well-formed upload within the limit meets a conflict if and only if it starts beyond what is held. */
  lemma ConflictIff(maxSize: int, files: Files, put: Put)
    requires !Oversize(maxSize, put) && !Malformed(maxSize, put)
    ensures var o, held := Serve(maxSize, files, put), |Held(files, put.name)|;
            && (o.reply.Conflict? <==> put.offset.value > held)
            && (o.reply.Conflict? ==> o.reply.held == held && o.files == files && o.stored == None)
  {
  }

  /** Of an upload that is stored, without failures of the file system: it is in progress if its body broke off or
      leaves it short of the total; a wrong digest removes ".part"; and otherwise it is delivered. */
  lemma StoredOutcome(maxSize: int, files: Files, put: Put)
    requires !Oversize(maxSize, put) && !Malformed(maxSize, put) && put.fault == NoFault
    requires put.offset.value <= |Held(files, put.name)|
    ensures var o, held, total := Serve(maxSize, files, put), |Held(files, put.name)|, put.total.value;
            var short := held + |put.body| < total;
            && (o.reply.Progress? && !o.reply.complete <==> short)
            && (short ==> o.stored == None && o.files == files[PartName(put.name) := Grown(files, put)])
            && (!short && put.sum != Some(Sha(Grown(files, put))) ==>
                  o.reply == ChecksumMismatch && o.stored == None && o.files == files - {PartName(put.name)})
            && (!short && put.sum == Some(Sha(Grown(files, put))) ==>
                  o.reply == Progress(total, true) && o.stored.Some? && o.files[o.stored.value] == Grown(files, put))
  {
    var part := PartName(put.name);
    assert files[part := Grown(files, put)] - {part} == files - {part};
  }

  /** A file system that fails leads to an error, and never to a delivery. */
  lemma FaultsAreErrors(maxSize: int, files: Files, put: Put)
    requires !Oversize(maxSize, put) && !Malformed(maxSize, put)
    requires put.offset.value <= |Held(files, put.name)|
    requires put.fault == OpenFails || (put.fault == TruncateFails && put.offset.value < |Held(files, put.name)|)
    ensures var o, part := Serve(maxSize, files, put), PartName(put.name);
            && o.reply == ServerError && o.stored == None
            && o.files == if put.fault == OpenFails && part in files
                          then files[part := files[part][..put.offset.value]] else files
  {
  }

  /** A failure that an upload does not come to makes no difference: to truncate without a rewind, to hash or rename
      what is not complete, or to rename what has the wrong digest. */
  lemma UnmetFaults(maxSize: int, files: Files, put: Put)
    requires !Oversize(maxSize, put) && !Malformed(maxSize, put)
    requires put.offset.value <= |Held(files, put.name)|
    requires var held := |Held(files, put.name)|;
             || (put.fault == TruncateFails && put.offset.value == held)
             || (put.fault in {HashFails, RenameFails} && held + |put.body| < put.total.value)
             || (put.fault == RenameFails && put.sum != Some(Sha(Grown(files, put))))
    ensures Serve(maxSize, files, put) == Serve(maxSize, files, put.(fault := NoFault))
  {
    assert Grown(files, put) == Grown(files, put.(fault := NoFault));
  }

  /** So do failures to hash or to rename, which leave the ".part" as it is. */
  lemma LateFaultsKeepPart(maxSize: int, files: Files, put: Put)
    requires !Oversize(maxSize, put) && !Malformed(maxSize, put)
    requires put.offset.value <= |Held(files, put.name)|
    requires |Held(files, put.name)| + |put.body| >= put.total.value
    requires put.fault == HashFails || (put.fault == RenameFails && put.sum == Some(Sha(Grown(files, put))))
    ensures Serve(maxSize, files, put) == Outcome(files[PartName(put.name) := Grown(files, put)], ServerError, None)
  {
  }

  // ----- The size limit -----

  ghost predicate WithinLimit(maxSize: int, files: Files) {
    forall f | f in files :: |files[f]| <= maxSize
  }

  lemma GrownWithin(maxSize: int, files: Files, put: Put)
    requires maxSize > 0 && WithinLimit(maxSize, files) && !Oversize(maxSize, put) && !Malformed(maxSize, put)
    requires put.offset.value <= |Held(files, put.name)|
    ensures |Grown(files, put)| <= maxSize
  {
  }

  lemma ServeWithin(maxSize: int, files: Files, put: Put)
    requires maxSize > 0 && WithinLimit(maxSize, files)
    ensures WithinLimit(maxSize, Serve(maxSize, files, put).files)
  {
    RefusalsIff(maxSize, files, put);
    if !Oversize(maxSize, put) && !Malformed(maxSize, put) && put.offset.value <= |Held(files, put.name)| {
      GrownWithin(maxSize, files, put);
    }
  }

  /** No ".part" and no delivered file ever exceeds a limit that is set. */
  lemma {:induction false} NothingOverLimit(maxSize: int, files: Files, puts: seq<Put>)
    requires maxSize > 0 && WithinLimit(maxSize, files)
    ensures WithinLimit(maxSize, ServeAll(maxSize, files, puts))
  {
    if puts != [] {
      NothingOverLimit(maxSize, files, puts[..|puts| - 1]);
      ServeWithin(maxSize, ServeAll(maxSize, files, puts[..|puts| - 1]), puts[|puts| - 1]);
    }
  }

  // ----- Delivered files only accumulate -----

  /** A PUT touches only its own ".part" and, when it delivers, one name that was free. */
  lemma OnlyOwnPart(maxSize: int, files: Files, put: Put, f: string)
    requires f in files && f != PartName(put.name)
    ensures f in Serve(maxSize, files, put).files && Serve(maxSize, files, put).files[f] == files[f]
  {
  }

  /** A delivered file is new, has the content that the request's digest names, and leaves no ".part". */
  lemma DeliveredMatchesDigest(maxSize: int, files: Files, put: Put)
    requires Serve(maxSize, files, put).stored.Some?
    ensures var o := Serve(maxSize, files, put);
            && o.stored.value !in files && o.stored.value in o.files
            && put.sum == Some(Sha(o.files[o.stored.value]))
            && o.reply == Progress(put.total.value, true)
            && (o.stored.value != PartName(put.name) ==> PartName(put.name) !in o.files)
  {
  }

  function ServeAll(maxSize: int, files: Files, puts: seq<Put>): Files {
    if puts == [] then files
    else Serve(maxSize, ServeAll(maxSize, files, puts[..|puts| - 1]), puts[|puts| - 1]).files
  }

  /** PUTs of names whose ".part" is not f leave f alone. */
  lemma {:induction false} FilesStay(maxSize: int, files: Files, puts: seq<Put>, f: string)
    requires f in files && forall p | p in puts :: PartName(p.name) != f
    ensures f in ServeAll(maxSize, files, puts) && ServeAll(maxSize, files, puts)[f] == files[f]
  {
    if puts != [] {
      var init, last := puts[..|puts| - 1], puts[|puts| - 1];
      FilesStay(maxSize, files, init, f);
      assert last in puts;
      OnlyOwnPart(maxSize, ServeAll(maxSize, files, init), last, f);
    }
  }

  /** A delivered file keeps the content whose digest its request announced, whatever is uploaded afterwards under
      names of which it is not the ".part". */
  lemma DeliveriesAccumulate(maxSize: int, files: Files, put: Put, later: seq<Put>)
    requires var o := Serve(maxSize, files, put);
             o.stored.Some? && forall p | p in later :: PartName(p.name) != o.stored.value
    ensures var o := Serve(maxSize, files, put);
            var end := ServeAll(maxSize, o.files, later);
            o.stored.value in end && put.sum == Some(Sha(end[o.stored.value]))
  {
    var o := Serve(maxSize, files, put);
    DeliveredMatchesDigest(maxSize, files, put);
    FilesStay(maxSize, o.files, later, o.stored.value);
  }

  /** No uploads that may follow, of any valid names, can touch the file f. */
  ghost predicate Safe(maxSize: int, files: Files, f: string) {
    forall later: seq<Put> | (forall p | p in later :: ValidName(p.name)) ::
      f in files && f in ServeAll(maxSize, files, later) && ServeAll(maxSize, files, later)[f] == files[f]
  }

  /** An upload of nothing with a digest of no file, which removes whatever is held under the name. */
  function Eraser(name: string): Put {
    Put(name, Some(0), Some(0), Some(NoPreimage(0)), [], false, NoFault)
  }

  lemma EraserErases(maxSize: int, files: Files, name: string)
    ensures ServeAll(maxSize, files, [Eraser(name)]) == files - {PartName(name)}
  {
    var put := Eraser(name);
    assert [put][..0] == [];
    assert Taken(put, |Held(files, name)|) == [];
    assert files[PartName(name) := Grown(files, put)] - {PartName(name)} == files - {PartName(name)};
  }

  /** A delivery is safe from all later uploads if and only if it was not stored as the ".part" of a valid name. */
  lemma DeliveryIsSafeIff(maxSize: int, files: Files, put: Put)
    requires Serve(maxSize, files, put).stored.Some?
    ensures var o := Serve(maxSize, files, put);
            Safe(maxSize, o.files, o.stored.value) <==>
            forall n: string | ValidName(n) :: o.stored.value != PartName(n)
  {
    var o := Serve(maxSize, files, put);
    var f := o.stored.value;
    DeliveredMatchesDigest(maxSize, files, put);
    if n: string :| ValidName(n) && f == PartName(n) {
      EraserErases(maxSize, o.files, n);
      var later := [Eraser(n)];
      assert f !in ServeAll(maxSize, o.files, later);
    } else {
      forall later: seq<Put> | forall p | p in later :: ValidName(p.name)
        ensures f in ServeAll(maxSize, o.files, later) && ServeAll(maxSize, o.files, later)[f] == o.files[f]
      {
        FilesStay(maxSize, o.files, later, f);
      }
    }
  }

  /** The upload changes or removes the file f. */
  predicate Damages(maxSize: int, files: Files, put: Put, f: string) {
    var after := Serve(maxSize, files, put).files;
    f in files && !(f in after && after[f] == files[f])
  }

  /** Which files of the directory an upload can damage: exactly those that are the ".part" of a valid
      name. */
  lemma DamagedIffPart(maxSize: int, f: string)
    ensures (exists files: Files, put: Put :: ValidName(put.name) && Damages(maxSize, files, put, f))
            <==> (exists n: string :: ValidName(n) && f == PartName(n))
  {
    if n: string :| ValidName(n) && f == PartName(n) {
      var files: Files := map[f := [1]];
      var put := Put(n, Some(0), Some(0), Some(NoPreimage(0)), [], false, NoFault);
      assert Held(files, n) == [1];
      assert Damages(maxSize, files, put, f);
    }
    if files: Files, put: Put :| ValidName(put.name) && Damages(maxSize, files, put, f) {
      if f != PartName(put.name) { OnlyOwnPart(maxSize, files, put, f); }
    }
  }

  /** The first upload into an empty directory delivers under its own name. */
  lemma FirstDelivery(name: string, content: seq<byte>)
    ensures Serve(0, map[], Full(name, content, 0)) ==
            Outcome(map[name := content], Progress(|content|, true), Some(name))
  {
    var put := Full(name, content, 0);
    assert |PartName(name)| != |name|;
    assert Held(map[], name) == [];
    assert Grown(map[], put) == content;
    assert map[PartName(name) := content] - {PartName(name)} == map[];
  }

  /** So a delivery can be lost: a file delivered under a name ending in ".part" is removed by an upload
      of the name without it. */
  lemma PartNamedDeliveryIsLost(n: string, content: seq<byte>)
    requires ValidName(n) && content != []
    ensures var first := Serve(0, map[], Full(PartName(n), content, 0));
            && first.stored == Some(PartName(n))
            && exists second: Put :: second.name == n && Damages(0, first.files, second, PartName(n))
  {
    FirstDelivery(PartName(n), content);
    var files: Files := map[PartName(n) := content];
    var second := Put(n, Some(0), Some(0), Some(NoPreimage(0)), [], false, NoFault);
    assert Held(files, n) == content;
    assert Damages(0, files, second, PartName(n));
  }

  // ----- The offset that is reported -----

  /** A partial PUT reports the size that ".part" now has if and only if it did not rewind. */
  lemma ReportedOffsetIff(maxSize: int, files: Files, put: Put)
    requires var r := Serve(maxSize, files, put).reply; r.Progress? && !r.complete
    ensures Serve(maxSize, files, put).reply.offset == |Held(Serve(maxSize, files, put).files, put.name)|
            <==> put.offset == Some(|Held(files, put.name)|)
  {
  }

  /** With three octets held, a PUT that starts over with one octet reports four while one is held. */
  lemma RewindMisreports(name: string, sum: Digest)
    ensures var files: Files := map[PartName(name) := [1, 2, 3]];
            var put := Put(name, Some(10), Some(0), Some(sum), [9], false, NoFault);
            var o := Serve(0, files, put);
            o.reply == Progress(4, false) && Held(o.files, name) == [9]
  {
    var files: Files := map[PartName(name) := [1, 2, 3]];
    var put := Put(name, Some(10), Some(0), Some(sum), [9], false, NoFault);
    assert Grown(files, put) == [9];
  }

  // ----- Honest senders: the same source under the same name -----

  /** If the PUT is of this name, it announces the source and carries bytes of it from its offset on. */
  ghost predicate Honest(name: string, source: seq<byte>, put: Put) {
    put.name == name ==>
      && put.total == Some(|source|) && put.sum == Some(Sha(source))
      && (put.offset.Some? && 0 <= put.offset.value ==>
            put.offset.value <= |source| && put.body <= source[put.offset.value..])
  }

  /** A PUT of another name does not deliver, as the ".part" of this one, something that is no prefix of the source. */
  ghost predicate Spares(maxSize: int, files: Files, name: string, source: seq<byte>, put: Put) {
    var o := Serve(maxSize, files, put);
    put.name != name && o.stored == Some(PartName(name)) ==>
      PartName(name) in o.files && o.files[PartName(name)] <= source
  }

  ghost predicate PartIsPrefix(files: Files, name: string, source: seq<byte>) {
    PartName(name) in files ==> files[PartName(name)] <= source
  }

  lemma PrefixGrows(source: seq<byte>, a: nat, body: seq<byte>, taken: seq<byte>)
    requires a <= |source| && taken <= body <= source[a..]
    ensures source[..a] + taken <= source
  {
    assert taken == source[a..][..|taken|] == source[a..a + |taken|];
    assert source[..a] + taken == source[..a + |taken|];
  }

  lemma HonestGrows(maxSize: int, files: Files, name: string, source: seq<byte>, put: Put)
    requires Honest(name, source, put) && PartIsPrefix(files, name, source) && put.name == name
    requires !Rejected(maxSize, put) && put.offset.value <= |Held(files, name)|
    ensures Grown(files, put) <= source && Held(files, name)[..put.offset.value] <= source
  {
    PrefixGrows(source, put.offset.value, put.body, Taken(put, |Held(files, name)|));
    assert Held(files, name)[..put.offset.value] == source[..put.offset.value];
  }

  /** Nothing is delivered as the ".part" of its own name. */
  lemma NotOwnPart(maxSize: int, files: Files, put: Put)
    ensures Serve(maxSize, files, put).stored != Some(PartName(put.name))
  {
  }

  lemma OwnPutKeeps(maxSize: int, files: Files, name: string, source: seq<byte>, put: Put)
    requires Honest(name, source, put) && PartIsPrefix(files, name, source) && put.name == name
    ensures PartIsPrefix(Serve(maxSize, files, put).files, name, source)
  {
    if !Rejected(maxSize, put) && put.offset.value <= |Held(files, name)| {
      HonestGrows(maxSize, files, name, source, put);
    }
    NotOwnPart(maxSize, files, put);
  }

  /** PUTs of other names that spare it leave the ".part" a prefix of the source, and no others do. */
  lemma OtherPutKeepsIff(maxSize: int, files: Files, name: string, source: seq<byte>, put: Put)
    requires PartIsPrefix(files, name, source) && put.name != name
    ensures PartIsPrefix(Serve(maxSize, files, put).files, name, source) <==> Spares(maxSize, files, name, source, put)
  {
    if PartName(name) == PartName(put.name) { PartNameInjective(name, put.name); }
  }

  /** Cuts, conflicts, rewinds and file-system failures keep ".part" a prefix of the source, and every
      file delivered under the name is the source. */
  lemma HonestKeeps(maxSize: int, files: Files, name: string, source: seq<byte>, put: Put)
    requires Honest(name, source, put) && Spares(maxSize, files, name, source, put) && PartIsPrefix(files, name, source)
    ensures var o := Serve(maxSize, files, put);
            && PartIsPrefix(o.files, name, source)
            && (put.name == name && o.stored.Some? ==>
                  && o.stored.value != PartName(name)
                  && o.stored.value in o.files && o.files[o.stored.value] == source)
  {
    if put.name == name {
      OwnPutKeeps(maxSize, files, name, source, put);
      NotOwnPart(maxSize, files, put);
      if Serve(maxSize, files, put).stored.Some? { DeliveredMatchesDigest(maxSize, files, put); }
    } else {
      OtherPutKeepsIff(maxSize, files, name, source, put);
    }
  }

  /** A name without the suffix ".part" is not stored under one that has it, so such PUTs spare every other name. */
  lemma PlainNamesSpare(maxSize: int, files: Files, name: string, source: seq<byte>, put: Put)
    requires !IsPart(put.name)
    ensures Spares(maxSize, files, name, source, put)
    ensures Serve(maxSize, files, put).stored.Some? ==> !IsPart(Serve(maxSize, files, put).stored.value)
  {
    if Serve(maxSize, files, put).stored.Some? {
      FinalNameNotPart(files[PartName(put.name) := Grown(files, put)], put.name);
      assert IsPart(PartName(name));
    }
  }

  /** A conflict changes nothing and reports the offset from which an upload meets no conflict. */
  lemma ConflictResyncs(maxSize: int, files: Files, put: Put, again: Put)
    requires Serve(maxSize, files, put).reply.Conflict?
    requires again.name == put.name && again.offset == Some(Serve(maxSize, files, put).reply.held)
    ensures var o := Serve(maxSize, files, put);
            && o.files == files && o.stored == None && o.reply.held < put.offset.value
            && !Serve(maxSize, o.files, again).reply.Conflict?
            && (Serve(maxSize, o.files, again).reply.Progress? ==>
                  Held(files, put.name) <= Grown(o.files, again))
  {
    assert Held(files, put.name)[..|Held(files, put.name)|] == Held(files, put.name);
  }

  /** The source delivered from a directory that has it, whole, as the ".part" of the name. */
  function Finished(full: Files, name: string, source: seq<byte>): Outcome {
    Outcome((full - {PartName(name)})[FinalName(full, name) := source], Progress(|source|, true),
            Some(FinalName(full, name)))
  }

  /** Everything from the held prefix on, uploaded at once. */
  lemma UploadRest(maxSize: int, files: Files, name: string, source: seq<byte>)
    requires maxSize <= 0 || |source| <= maxSize
    requires Held(files, name) <= source
    ensures Serve(maxSize, files, Full(name, source, |Held(files, name)|)) ==
            Finished(files[PartName(name) := source], name, source)
  {
    var at := |Held(files, name)|;
    assert Held(files, name)[..at] == source[..at];
    assert source[..at] + source[at..] == source;
    assert Grown(files, Full(name, source, at)) == source;
  }

  /** The same, once the first n bytes have been stored. */
  lemma UploadRestAt(maxSize: int, files: Files, name: string, source: seq<byte>, n: nat)
    requires maxSize <= 0 || |source| <= maxSize
    requires n <= |source|
    ensures var files' := files[PartName(name) := source[..n]];
            Serve(maxSize, files', Full(name, source, n)) == Finished(files[PartName(name) := source], name, source)
  {
    var files' := files[PartName(name) := source[..n]];
    assert Held(files', name) == source[..n];
    UploadRest(maxSize, files', name, source);
    assert files'[PartName(name) := source] == files[PartName(name) := source];
  }

  function CutUpload(name: string, source: seq<byte>, at: nat, k: nat): Put
    requires at + k <= |source|
  {
    Full(name, source, at).(body := source[at..at + k], interrupted := true)
  }

  lemma UploadCut(maxSize: int, files: Files, name: string, source: seq<byte>, k: nat)
    requires maxSize <= 0 || |source| <= maxSize
    requires Held(files, name) <= source && k < |source| - |Held(files, name)|
    ensures var at := |Held(files, name)|;
            Serve(maxSize, files, CutUpload(name, source, at, k)) ==
            Outcome(files[PartName(name) := source[..at + k]], Progress(at + k, false), None)
  {
    var at := |Held(files, name)|;
    assert Held(files, name)[..at] == source[..at];
    assert source[..at] + source[at..at + k] == source[..at + k];
    assert Grown(files, CutUpload(name, source, at, k)) == source[..at + k];
  }

  /** An upload that is cut after k bytes and resumed ends exactly like one that was never cut. */
  lemma ResumeEqualsOneShot(maxSize: int, files: Files, name: string, source: seq<byte>, k: nat)
    requires maxSize <= 0 || |source| <= maxSize
    requires Held(files, name) <= source && k < |source| - |Held(files, name)|
    ensures var at := |Held(files, name)|;
            var o := Serve(maxSize, files, CutUpload(name, source, at, k));
            && o.reply == Progress(at + k, false) && |Held(o.files, name)| == at + k
            && Serve(maxSize, o.files, Full(name, source, at + k)) == Serve(maxSize, files, Full(name, source, at))
  {
    UploadCut(maxSize, files, name, source, k);
    UploadRest(maxSize, files, name, source);
    UploadRestAt(maxSize, files, name, source, |Held(files, name)| + k);
  }

  /** A PUT that rewinds delivers in the same request only when nothing is left to send. */
  lemma RewindHealsIff(maxSize: int, files: Files, name: string, source: seq<byte>, offset: nat)
    requires maxSize <= 0 || |source| <= maxSize
    requires offset <= |source| && offset < |Held(files, name)|
    ensures Serve(maxSize, files, Full(name, source, offset)).stored.Some?
            <==> offset == |source| && Held(files, name)[..offset] == source
  {
    var put := Full(name, source, offset);
    var grown := Grown(files, put);
    if offset == |source| {
      assert Taken(put, |Held(files, name)|) == [];
      assert grown == Held(files, name)[..offset];
    } else {
      assert |grown| < |source|;
    }
  }
}
