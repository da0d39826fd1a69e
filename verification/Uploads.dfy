/**
 * Concurrent uploads, deletions and purges over one document table and one object store. An upload
 * checks for a duplicate, stores its bytes and inserts its row in three separate steps; the unique
 * index on owner and checksum decides races at the insert.
 */
module Uploads {
  import opened Text

  type Bytes = string
  type Checksum = string

  datatype Document = Document(owner: nat, checksum: Checksum, storageKey: string)

  datatype Phase = Checked | Stored | Losing

  datatype InFlight = InFlight(owner: nat, data: Bytes, suffix: string, phase: Phase)

  datatype World = World(
    rows: map<string, Document>,
    objects: map<string, Bytes>,
    used: set<string>,               // every document id ever drawn
    uploads: map<string, InFlight>,    // in flight, by the id drawn for the document
    purges: set<string>)             // ids whose purge has been queued; a purge may run late and repeatedly

  const EMPTY := World(map[], map[], {}, map[], {})

  predicate ValidId(id: string) { '/' !in id }

  function StoragePrefix(id: string): string { "documents/" + id + "/" }

  function StorageKey(id: string, suffix: string): string { StoragePrefix(id) + "original" + suffix }

  function DeletePrefix(objects: map<string, Bytes>, prefix: string): map<string, Bytes> {
    map k | k in objects && !(prefix <= k) :: objects[k]
  }

  predicate Exists(rows: map<string, Document>, owner: nat, checksum: Checksum) {
    exists id :: id in rows && rows[id].owner == owner && rows[id].checksum == checksum
  }

  datatype Step =
    | Check(owner: nat, data: Bytes, id: string, suffix: string)
    | Put(id: string)
    | Create(id: string)
    | Refuse(id: string)             // the insert breaks another constraint than the unique index
    | Cleanup(id: string)
    | Abandon(id: string)
    | Delete(id: string, queued: bool)
    | Purge(id: string)

  predicate Enabled(w: World, s: Step) {
    match s
    case Check(_, _, id, _) => ValidId(id) && id !in w.used
    case Put(id) => id in w.uploads && w.uploads[id].phase == Checked
    case Create(id) => id in w.uploads && w.uploads[id].phase == Stored
    case Refuse(id) => id in w.uploads && w.uploads[id].phase == Stored
    case Cleanup(id) => id in w.uploads && w.uploads[id].phase == Losing
    case Abandon(id) => id in w.uploads
    case Delete(id, _) => id in w.rows
    case Purge(id) => id in w.purges
  }

  /** `sum` is the checksum function. */
  function Next(sum: Bytes -> Checksum, w: World, s: Step): World
    requires Enabled(w, s)
  {
    match s
    case Check(owner, data, id, suffix) =>
      if Exists(w.rows, owner, sum(data)) then w
      else w.(used := w.used + {id}, uploads := w.uploads[id := InFlight(owner, data, suffix, Checked)])
    case Put(id) =>
      var u := w.uploads[id];
      w.(objects := w.objects[StorageKey(id, u.suffix) := u.data], uploads := w.uploads[id := u.(phase := Stored)])
    case Create(id) =>
      var u := w.uploads[id];
      if Exists(w.rows, u.owner, sum(u.data)) then w.(uploads := w.uploads[id := u.(phase := Losing)])
      else w.(rows := w.rows[id := Document(u.owner, sum(u.data), StorageKey(id, u.suffix))],
          uploads := w.uploads - {id})
    case Refuse(id) => w.(uploads := w.uploads[id := w.uploads[id].(phase := Losing)])
    case Cleanup(id) => w.(objects := DeletePrefix(w.objects, StoragePrefix(id)), uploads := w.uploads - {id})
    case Abandon(id) => w.(uploads := w.uploads - {id})
    case Delete(id, queued) => w.(rows := w.rows - {id}, purges := if queued then w.purges + {id} else w.purges)
    case Purge(id) => w.(objects := DeletePrefix(w.objects, StoragePrefix(id)))
  }

  /** The world after the steps, taken from an empty one, if each of them is enabled in its turn. */
  function Exec(sum: Bytes -> Checksum, steps: seq<Step>): Option<World> {
    if steps == [] then Some(EMPTY)
    else
      var n := |steps| - 1;
      match Exec(sum, steps[..n])
      case None => None
      case Some(v) => if Enabled(v, steps[n]) then Some(Next(sum, v, steps[n])) else None
  }

  // --- keys ------------------------------------------------------------------

  /** Two prefixes of which one starts the other's key belong to the same document. */
  lemma {:induction false} PrefixIffSameId(a: string, b: string, suffix: string)
    requires ValidId(a) && ValidId(b)
    ensures StoragePrefix(a) <= StorageKey(b, suffix) <==> a == b
  {
    var p, k := StoragePrefix(a), StorageKey(b, suffix);
    assert k == StoragePrefix(b) + ("original" + suffix);
    if p <= k {
      assert p[10..] == a + "/" && k[10..] == b + "/" + ("original" + suffix);
      assert p[10..] <= k[10..];
      SlashEndsId(a, b, "original" + suffix);
    }
  }

  lemma {:induction false} SlashEndsId(a: string, b: string, rest: string)
    requires ValidId(a) && ValidId(b) && a + "/" <= b + "/" + rest
    ensures a == b
  {
    var x, y := a + "/", b + "/" + rest;
    assert x[|a|] == '/' && y[|b|] == '/';
    forall j | 0 <= j < |a| ensures x[j] != '/' { assert x[j] == a[j] && a[j] in a; }
    forall j | 0 <= j < |b| ensures y[j] != '/' { assert y[j] == b[j] && b[j] in b; }
    assert |a| == |b|;
    assert x[..|a|] == a && y[..|a|] == b;
  }

  lemma {:induction false} DeletingKeepsOthers(objects: map<string, Bytes>, gone: string, id: string, suffix: string)
    requires ValidId(gone) && ValidId(id) && gone != id
    ensures var after := DeletePrefix(objects, StoragePrefix(gone));
            StorageKey(id, suffix) in objects ==>
              StorageKey(id, suffix) in after && after[StorageKey(id, suffix)] == objects[StorageKey(id, suffix)]
  {
    PrefixIffSameId(gone, id, suffix);
  }

  /** The object is one of the document with this id. */
  predicate Under(key: string, id: string) { StoragePrefix(id) <= key }

  predicate NoneUnder(objects: map<string, Bytes>, id: string) { forall key | key in objects :: !Under(key, id) }

  lemma {:induction false} KeyIsUnder(id: string, suffix: string)
    ensures Under(StorageKey(id, suffix), id)
  {
    assert StorageKey(id, suffix) == StoragePrefix(id) + ("original" + suffix);
  }

  lemma {:induction false} UnderOne(key: string, a: string, b: string)
    requires ValidId(a) && ValidId(b) && Under(key, a) && Under(key, b)
    ensures a == b
  {
    var x, y := StoragePrefix(a), StoragePrefix(b);
    assert x <= key && y <= key;
    assert x[10..] == a + "/" && y[10..] == b + "/" && key[10..][..|a| + 1] == x[10..]
        && key[10..][..|b| + 1] == y[10..];
    if |a| <= |b| {
      assert x[10..] <= y[10..] + "";
      SlashEndsId(a, b, "");
    } else {
      assert y[10..] <= x[10..] + "";
      SlashEndsId(b, a, "");
    }
  }

  // --- the invariant ---------------------------------------------------------

  predicate OnePerChecksum(rows: map<string, Document>) {
    forall a, b | a in rows && b in rows && rows[a].owner == rows[b].owner
        && rows[a].checksum == rows[b].checksum :: a == b
  }

  /** The row's object is there, and holds bytes with the row's checksum. */
  ghost predicate Backed(sum: Bytes -> Checksum, w: World, id: string)
    requires id in w.rows
  {
    var key := w.rows[id].storageKey;
    && (exists suffix :: key == StorageKey(id, suffix))
    && key in w.objects && sum(w.objects[key]) == w.rows[id].checksum
  }

  ghost predicate UploadSafe(w: World, id: string)
    requires id in w.uploads
  {
    var u := w.uploads[id];
    && id in w.used && id !in w.rows && id !in w.purges
    && (u.phase == Stored ==> StorageKey(id, u.suffix) in w.objects && w.objects[StorageKey(id, u.suffix)] == u.data)
  }

  ghost predicate Safe(sum: Bytes -> Checksum, w: World) {
    && OnePerChecksum(w.rows)
    && (forall id | id in w.used :: ValidId(id))
    && w.rows.Keys <= w.used && w.purges <= w.used && w.rows.Keys !! w.purges
    && (forall id | id in w.rows :: Backed(sum, w, id))
    && (forall id | id in w.uploads :: UploadSafe(w, id))
  }

  lemma {:induction false} RemovalKeepsRows(sum: Bytes -> Checksum, w: World, v: World, gone: string)
    requires Safe(sum, w) && ValidId(gone) && gone !in w.rows
    requires v.rows == w.rows && v.objects == DeletePrefix(w.objects, StoragePrefix(gone))
    ensures forall id | id in v.rows :: Backed(sum, v, id)
  {
    forall id | id in v.rows ensures Backed(sum, v, id) {
      assert Backed(sum, w, id);
      var suffix :| w.rows[id].storageKey == StorageKey(id, suffix);
      DeletingKeepsOthers(w.objects, gone, id, suffix);
    }
  }

  lemma {:induction false} CheckSafe(sum: Bytes -> Checksum, w: World, s: Step)
    requires Safe(sum, w) && s.Check? && Enabled(w, s)
    ensures Safe(sum, Next(sum, w, s))
  {
    var v := Next(sum, w, s);
    forall id | id in v.rows ensures Backed(sum, v, id) { assert Backed(sum, w, id); }
    forall id | id in v.uploads ensures UploadSafe(v, id) {
      if id in w.uploads { assert UploadSafe(w, id); }
    }
  }

  lemma {:induction false} KeysDiffer(a: string, x: string, b: string, y: string)
    requires ValidId(a) && ValidId(b) && a != b
    ensures StorageKey(a, x) != StorageKey(b, y)
  {
    PrefixIffSameId(a, b, y);
    PrefixIffSameId(a, a, x);
  }

  lemma {:induction false} PutSafe(sum: Bytes -> Checksum, w: World, id: string)
    requires Safe(sum, w) && Enabled(w, Put(id))
    ensures Safe(sum, Next(sum, w, Put(id)))
  {
    var v, u := Next(sum, w, Put(id)), w.uploads[id];
    assert UploadSafe(w, id);
    forall other | other in v.rows ensures Backed(sum, v, other) {
      assert Backed(sum, w, other);
      var suffix :| w.rows[other].storageKey == StorageKey(other, suffix);
      KeysDiffer(other, suffix, id, u.suffix);
    }
    forall other | other in v.uploads ensures UploadSafe(v, other) {
      assert UploadSafe(w, other);
      if other != id { KeysDiffer(other, w.uploads[other].suffix, id, u.suffix); }
    }
  }

  lemma {:induction false} CreateSafe(sum: Bytes -> Checksum, w: World, id: string)
    requires Safe(sum, w) && Enabled(w, Create(id))
    ensures Safe(sum, Next(sum, w, Create(id)))
  {
    var v, u := Next(sum, w, Create(id)), w.uploads[id];
    assert UploadSafe(w, id);
    forall other | other in v.rows ensures Backed(sum, v, other) {
      if other in w.rows { assert Backed(sum, w, other); }
          else { assert v.rows[id].storageKey == StorageKey(id, u.suffix); }
    }
    forall other | other in v.uploads ensures UploadSafe(v, other) { assert UploadSafe(w, other); }
  }

  lemma {:induction false} RefuseSafe(sum: Bytes -> Checksum, w: World, id: string)
    requires Safe(sum, w) && Enabled(w, Refuse(id))
    ensures Safe(sum, Next(sum, w, Refuse(id)))
  {
    var v := Next(sum, w, Refuse(id));
    forall other | other in v.rows ensures Backed(sum, v, other) { assert Backed(sum, w, other); }
    forall other | other in v.uploads ensures UploadSafe(v, other) { assert UploadSafe(w, other); }
  }

  lemma {:induction false} CleanupSafe(sum: Bytes -> Checksum, w: World, s: Step)
    requires Safe(sum, w) && (s.Cleanup? || s.Abandon?) && Enabled(w, s)
    ensures Safe(sum, Next(sum, w, s))
  {
    var v := Next(sum, w, s);
    assert UploadSafe(w, s.id);
    if s.Cleanup? {
      RemovalKeepsRows(sum, w, v, s.id);
    } else {
      forall other | other in v.rows ensures Backed(sum, v, other) { assert Backed(sum, w, other); }
    }
    forall other | other in v.uploads ensures UploadSafe(v, other) {
      assert UploadSafe(w, other);
      DeletingKeepsOthers(w.objects, s.id, other, w.uploads[other].suffix);
    }
  }

  lemma {:induction false} DeleteSafe(sum: Bytes -> Checksum, w: World, s: Step)
    requires Safe(sum, w) && s.Delete? && Enabled(w, s)
    ensures Safe(sum, Next(sum, w, s))
  {
    var v := Next(sum, w, s);
    forall id | id in v.rows ensures Backed(sum, v, id) { assert Backed(sum, w, id); }
    forall id | id in v.uploads ensures UploadSafe(v, id) { assert UploadSafe(w, id); }
  }

  lemma {:induction false} PurgeSafe(sum: Bytes -> Checksum, w: World, id: string)
    requires Safe(sum, w) && Enabled(w, Purge(id))
    ensures Safe(sum, Next(sum, w, Purge(id)))
  {
    var v := Next(sum, w, Purge(id));
    RemovalKeepsRows(sum, w, v, id);
    forall other | other in v.uploads ensures UploadSafe(v, other) {
      assert UploadSafe(w, other);
      DeletingKeepsOthers(w.objects, id, other, w.uploads[other].suffix);
    }
  }

  /**
   * Under any interleaving there is at most one document per owner and checksum, and every document's
   * key holds bytes with its checksum: no losing upload's cleanup and no late purge removes them.
   */
  lemma {:induction false} EveryDocumentIsBacked(sum: Bytes -> Checksum, steps: seq<Step>)
    requires Exec(sum, steps).Some?
    ensures Safe(sum, Exec(sum, steps).value)
  {
    if steps != [] {
      var n := |steps| - 1;
      EveryDocumentIsBacked(sum, steps[..n]);
      StepSafe(sum, Exec(sum, steps[..n]).value, steps[n]);
    }
  }

  lemma {:induction false} StepSafe(sum: Bytes -> Checksum, w: World, s: Step)
    requires Safe(sum, w) && Enabled(w, s)
    ensures Safe(sum, Next(sum, w, s))
  {
    match s
    case Check(_, _, _, _) => CheckSafe(sum, w, s);
    case Put(id) => PutSafe(sum, w, id);
    case Create(id) => CreateSafe(sum, w, id);
    case Refuse(id) => RefuseSafe(sum, w, id);
    case Cleanup(_) => CleanupSafe(sum, w, s);
    case Abandon(_) => CleanupSafe(sum, w, s);
    case Delete(_, _) => DeleteSafe(sum, w, s);
    case Purge(id) => PurgeSafe(sum, w, id);
  }

  // --- one upload among others -----------------------------------------------

  /** The step is not one of the upload that has drawn `id`. */
  predicate Spares(s: Step, id: string) {
    (s.Put? || s.Create? || s.Refuse? || s.Cleanup? || s.Abandon?) ==> s.id != id
  }

  /** What other requests make of the world meanwhile: those of the steps that are theirs and possible. */
  function Meanwhile(sum: Bytes -> Checksum, w: World, id: string, steps: seq<Step>): World {
    if steps == [] then w
    else
      var n := |steps| - 1;
      var v := Meanwhile(sum, w, id, steps[..n]);
      if Spares(steps[n], id) && Enabled(v, steps[n]) then Next(sum, v, steps[n]) else v
  }

  /** Others keep the invariant, and leave this upload where it is. */
  lemma {:induction false} OthersSpareUpload(sum: Bytes -> Checksum, w: World, id: string, steps: seq<Step>)
    requires Safe(sum, w) && id in w.used
    ensures var v := Meanwhile(sum, w, id, steps);
            && Safe(sum, v) && id in v.used
            && (id in v.uploads <==> id in w.uploads) && (id in w.uploads ==> v.uploads[id] == w.uploads[id])
            && (id !in w.rows ==> id !in v.rows)
  {
    if steps != [] {
      var n := |steps| - 1;
      var v := Meanwhile(sum, w, id, steps[..n]);
      OthersSpareUpload(sum, w, id, steps[..n]);
      if Spares(steps[n], id) && Enabled(v, steps[n]) { StepSafe(sum, v, steps[n]); }
    }
  }

  /** Others store nothing under an id that has no upload in flight. */
  lemma {:induction false} OthersStoreNothing(sum: Bytes -> Checksum, w: World, id: string, steps: seq<Step>)
    requires Safe(sum, w) && id in w.used && NoneUnder(w.objects, id)
    ensures NoneUnder(Meanwhile(sum, w, id, steps).objects, id)
  {
    if steps != [] {
      var n := |steps| - 1;
      var v := Meanwhile(sum, w, id, steps[..n]);
      OthersSpareUpload(sum, w, id, steps[..n]);
      OthersStoreNothing(sum, w, id, steps[..n]);
      if Spares(steps[n], id) && Enabled(v, steps[n]) && steps[n].Put? {
        var other := steps[n].id;
        assert UploadSafe(v, other);
        KeyIsUnder(other, v.uploads[other].suffix);
        if Under(StorageKey(other, v.uploads[other].suffix), id) {
          UnderOne(StorageKey(other, v.uploads[other].suffix), other, id);
        }
      }
    }
  }

  /** The rows, objects and requests in flight, with the upload operation working on them. */
  class DocumentService {
    const sum: Bytes -> Checksum
    var rows: map<string, Document>
    var objects: map<string, Bytes>
    var used: set<string>
    var uploads: map<string, InFlight>
    var purges: set<string>

    function Current(): World
      reads this
    {
      World(rows, objects, used, uploads, purges)
    }

    constructor (sum: Bytes -> Checksum)
      ensures this.sum == sum && Current() == EMPTY && Safe(sum, Current())
    {
      this.sum := sum;
      rows, objects, used, uploads, purges := map[], map[], {}, map[], {};
    }

    /** Other requests get their turn. */
    method Await(id: string, steps: seq<Step>)
      requires Safe(sum, Current()) && id in used
      modifies this
      ensures Current() == Meanwhile(sum, old(Current()), id, steps) && Safe(sum, Current()) && id in used
      ensures (id in uploads <==> id in old(uploads)) && (id !in old(rows) ==> id !in rows)
      ensures id in uploads ==> uploads[id] == old(uploads[id])
    {
      OthersSpareUpload(sum, Current(), id, steps);
      var v := Meanwhile(sum, Current(), id, steps);
      rows, objects, used, uploads, purges := v.rows, v.objects, v.used, v.uploads, v.purges;
    }

    method GetByChecksum(owner: nat, checksum: Checksum) returns (r: Option<string>)
      ensures r.Some? <==> Exists(rows, owner, checksum)
      ensures r.Some? ==> r.value in rows && rows[r.value].owner == owner && rows[r.value].checksum == checksum
    {
      if !Exists(rows, owner, checksum) {
        return None;
      }
      var id :| id in rows && rows[id].owner == owner && rows[id].checksum == checksum;
      return Some(id);
    }

    /**
     * One upload, with other requests taking their steps before each of its own. The document it
     * returns has the owner and the checksum of the upload, and the invariant says that its object
     * holds such bytes. It is a new document exactly if neither the check nor the insert found
     * another, nor another constraint refused the insert; and none is returned, which is an error to
     * the user, only when no document with that checksum is there at the end. `refused` and `removed`
     * say what the constraints and the file system do.
     */
    method Upload(owner: nat, data: Bytes, id: string, suffix: string, refused: bool, removed: bool,
                  beforePut: seq<Step>, beforeCreate: seq<Step>, beforeCleanup: seq<Step>, beforeLookup: seq<Step>)
      returns (document: Option<string>, deduplicated: bool)
      requires Safe(sum, Current()) && ValidId(id) && id !in used
      modifies this
      ensures Safe(sum, Current())
      ensures document.Some? ==>
        document.value in rows && rows[document.value].owner == owner && rows[document.value].checksum == sum(data)
      ensures deduplicated <==> document != Some(id)
      ensures var checked := Next(sum, old(Current()), Check(owner, data, id, suffix));
              var before := BeforeInsert(sum, checked, id, beforePut, beforeCreate);
              deduplicated <==> Exists(old(rows), owner, sum(data)) || Exists(before.rows, owner, sum(data)) || refused
      ensures document.None? ==> !Exists(old(rows), owner, sum(data)) && !Exists(rows, owner, sum(data))
      ensures document == Some(id) ==> objects[rows[id].storageKey] == data
      ensures id !in uploads
      ensures deduplicated && removed && !Exists(old(rows), owner, sum(data)) ==> NoneUnder(objects, id)
    {
      document := GetByChecksum(owner, sum(data));
      CheckSafe(sum, Current(), Check(owner, data, id, suffix));
      if document.Some? {
        return document, true;
      }
      used, uploads := used + {id}, uploads[id := InFlight(owner, data, suffix, Checked)];

      Await(id, beforePut);
      PutSafe(sum, Current(), id);
      objects, uploads := objects[StorageKey(id, suffix) := data], uploads[id := uploads[id].(phase := Stored)];

      Await(id, beforeCreate);
      var inserted := Insert(owner, data, id, suffix, refused);
      if inserted {
        return Some(id), false;
      }
      document := GiveWay(owner, data, id, removed, beforeCleanup, beforeLookup);
      deduplicated := true;
    }

    /** The insert and its commit: one row more, or an integrity error. */
    method Insert(owner: nat, data: Bytes, id: string, suffix: string, refused: bool) returns (inserted: bool)
      requires Safe(sum, Current()) && id in uploads && uploads[id] == InFlight(owner, data, suffix, Stored)
      modifies this`rows, this`uploads
      ensures Safe(sum, Current()) && id !in old(rows)
      ensures inserted <==> !Exists(old(rows), owner, sum(data)) && !refused
      ensures inserted ==>
        && rows == old(rows)[id := Document(owner, sum(data), StorageKey(id, suffix))] && id !in uploads
        && StorageKey(id, suffix) in objects && objects[StorageKey(id, suffix)] == data
      ensures !inserted ==> rows == old(rows) && Enabled(Current(), Cleanup(id))
    {
      CreateSafe(sum, Current(), id);
      RefuseSafe(sum, Current(), id);
      assert UploadSafe(Current(), id);
      inserted := !Exists(rows, owner, sum(data)) && !refused;
      if inserted {
        rows, uploads := rows[id := Document(owner, sum(data), StorageKey(id, suffix))], uploads - {id};
      } else {
        uploads := uploads[id := uploads[id].(phase := Losing)];
      }
    }

    /**
     * After the insert was refused: the stored bytes are removed, and the winner's document is looked
     * up. The removal ignores errors, so what cannot be removed stays behind, with no row.
     */
    method GiveWay(owner: nat, data: Bytes, id: string, removed: bool, beforeCleanup: seq<Step>,
        beforeLookup: seq<Step>) returns (document: Option<string>)
      requires Safe(sum, Current()) && Enabled(Current(), Cleanup(id))
      modifies this
      ensures Safe(sum, Current()) && id !in uploads && id !in rows && (removed ==> NoneUnder(objects, id))
      ensures document.Some? <==> Exists(rows, owner, sum(data))
      ensures document.Some? ==>
        document.value in rows && rows[document.value].owner == owner && rows[document.value].checksum == sum(data)
    {
      assert UploadSafe(Current(), id);
      Await(id, beforeCleanup);
      CleanupSafe(sum, Current(), if removed then Cleanup(id) else Abandon(id));
      if removed {
        objects := DeletePrefix(objects, StoragePrefix(id));
      }
      uploads := uploads - {id};

      if removed { OthersStoreNothing(sum, Current(), id, beforeLookup); }
      Await(id, beforeLookup);
      document := GetByChecksum(owner, sum(data));
    }

    /** The row goes at once; its object only when the purge runs, if that could be queued. */
    method Delete(id: string, queued: bool)
      requires Safe(sum, Current()) && id in rows
      modifies this
      ensures Safe(sum, Current()) && Current() == Next(sum, old(Current()), Step.Delete(id, queued))
    {
      DeleteSafe(sum, Current(), Step.Delete(id, queued));
      rows := rows - {id};
      if queued {
        purges := purges + {id};
      }
    }

    /** A purge ignores what it cannot remove. */
    method Purge(id: string, removed: bool)
      requires Safe(sum, Current()) && id in purges
      modifies this`objects
      ensures Safe(sum, Current())
          && Current() == if removed then Next(sum, old(Current()), Step.Purge(id)) else old(Current())
      ensures removed ==> NoneUnder(objects, id)
    {
      PurgeSafe(sum, Current(), id);
      if removed {
        objects := DeletePrefix(objects, StoragePrefix(id));
      }
    }
  }

  /** The world in which the insert of a checked upload happens. */
  function BeforeInsert(sum: Bytes -> Checksum, checked: World, id: string, beforePut: seq<Step>,
      beforeCreate: seq<Step>): World {
    var w := Meanwhile(sum, checked, id, beforePut);
    Meanwhile(sum, if Enabled(w, Put(id)) then Next(sum, w, Put(id)) else w, id, beforeCreate)
  }

  // --- what is left behind ---------------------------------------------------

  /** The id has a row, an upload in flight, a purge still to come, or was given up with its bytes left behind. */
  ghost predicate Claimed(w: World, steps: seq<Step>, id: string) {
    id in w.rows || id in w.uploads || Abandon(id) in steps || DeletedSincePurge(steps, id)
  }

  /** The document was deleted, and no purge of it has run since. */
  predicate DeletedSincePurge(steps: seq<Step>, id: string) {
    steps != [] &&
      var last := steps[|steps| - 1];
      (last.Delete? && last.id == id) || (last != Purge(id) && DeletedSincePurge(steps[..|steps| - 1], id))
  }

  lemma {:induction false} StillClaimed(sum: Bytes -> Checksum, w: World, steps: seq<Step>, s: Step, key: string,
      id: string)
    requires Safe(sum, w) && Enabled(w, s) && ValidId(id) && Under(key, id) && Claimed(w, steps, id)
    requires key in Next(sum, w, s).objects
    ensures Claimed(Next(sum, w, s), steps + [s], id)
  {
    assert (steps + [s])[..|steps|] == steps;
    assert Abandon(id) in steps ==> Abandon(id) in steps + [s];
    assert s in steps + [s];
    if (s.Cleanup? || s.Purge?) && s.id == id { assert false; }
  }

  /**
   * In every run nothing is left behind without a reason: an object in the store belongs to a document, to
   * an upload in flight, to an upload whose bytes could not be removed, or to a deleted document whose purge
   * has not run since, because it could not be queued or is still to come.
   */
  lemma {:induction false} ObjectsAreAccountedFor(sum: Bytes -> Checksum, steps: seq<Step>, key: string)
      returns (id: string)
    requires Exec(sum, steps).Some? && key in Exec(sum, steps).value.objects
    ensures ValidId(id) && Under(key, id) && Claimed(Exec(sum, steps).value, steps, id)
  {
    var n := |steps| - 1;
    var w, s := Exec(sum, steps[..n]).value, steps[n];
    assert steps == steps[..n] + [s];
    EveryDocumentIsBacked(sum, steps[..n]);
    if s.Put? && key == StorageKey(s.id, w.uploads[s.id].suffix) {
      id := s.id;
      assert UploadSafe(w, id);
      KeyIsUnder(id, w.uploads[id].suffix);
    } else {
      id := ObjectsAreAccountedFor(sum, steps[..n], key);
      StillClaimed(sum, w, steps[..n], s, key, id);
    }
  }

  /** The table changes only by an insert that finds no duplicate, and by a deletion; and then by one row. */
  lemma {:induction false} RowsChangeOneByOne(sum: Bytes -> Checksum, w: World, s: Step)
    requires Enabled(w, s)
    ensures var v := Next(sum, w, s);
            if s.Create? && !Exists(w.rows, w.uploads[s.id].owner, sum(w.uploads[s.id].data)) then
              var u := w.uploads[s.id];
              && v.rows.Keys == w.rows.Keys + {s.id}
              && v.rows[s.id] == Document(u.owner, sum(u.data), "documents/" + s.id + "/original" + u.suffix)
              && forall id | id in w.rows && id != s.id :: v.rows[id] == w.rows[id]
            else if s.Delete? then
              v.rows.Keys == w.rows.Keys - {s.id} && forall id | id in v.rows :: v.rows[id] == w.rows[id]
            else v.rows == w.rows
  {
    if s.Create? {
      var suffix := w.uploads[s.id].suffix;
      assert StorageKey(s.id, suffix) == "documents/" + s.id + "/original" + suffix by {
        assert "/original" == "/" + "original";
      }
    }
  }

  /** A losing upload's cleanup and a purge that work leave no object of that document, and touch no other's. */
  lemma {:induction false} RemovalIsExact(sum: Bytes -> Checksum, w: World, s: Step, key: string)
    requires Safe(sum, w) && Enabled(w, s) && (s.Cleanup? || s.Purge?)
    ensures key in Next(sum, w, s).objects <==> key in w.objects && !Under(key, s.id)
    ensures key in Next(sum, w, s).objects ==> Next(sum, w, s).objects[key] == w.objects[key]
  {
  }
}
