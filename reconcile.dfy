/** What `AutoSheet.ImportPipeData` does to the drawing when its transaction
    commits: every readable pipe gets the inverts looked up by its handle, and the
    structures at its ends get a sump controlled by depth. */
module Reconcile {
  import opened Failures
  import opened Workbook
  import opened Civil

  /** The sump depth given to every reconnected structure. */
  const SumpDepth: real := 0.3

  /** The elevation given to a pipe end whose invert (inside bottom) is `invert`. */
  function EndElevation(invert: real, p: Pipe): real
  {
    invert + p.outerDiameter / 2.0 - p.wallThickness
  }

  /** The pipe with new end elevations; X and Y stay. */
  function WithInverts(p: Pipe, startInvert: real, endInvert: real): Pipe
  {
    p.(start := p.start.(z := EndElevation(startInvert, p)),
       end := p.end.(z := EndElevation(endInvert, p)))
  }

  function SumpByDepth(s: Structure): Structure
  {
    s.(sumpControl := ByDepth, sumpDepth := SumpDepth)
  }

  /** Whether a pipe end's structure id names an object of the drawing. For a null id
      (a free end) or one that names nothing, `ConnectToStructure` and `GetObject` raise
      the host's exception, which is not a COMException. */
  predicate Attached(entities: map<ObjectId, Entity>, sid: Option<ObjectId>)
  {
    sid.Some? && sid.value in entities
  }

  /** Reopening a reconnected structure for write and setting its sump; an object that
      is not a structure (`as Structure` gives null) is left alone. */
  function WithSump(entities: map<ObjectId, Entity>, sid: ObjectId): map<ObjectId, Entity>
  {
    if StructureAt(entities, sid).Some?
    then entities[sid := StructureEntity(SumpByDepth(StructureAt(entities, sid).value))]
    else entities
  }

  /** Reading one invert: the column index comes from a range that is null when its name
      was not resolved (a NullReference); VLookup fails with a COMException when the
      handle is not in the table; an empty cell reads as 0. */
  datatype Read = Value(value: real) | ReadFails(error: Exception)

  function ReadInvert(lookup: VLookup, handle: int, column: Option<Range>): Read
  {
    if column.None? then ReadFails(NullReference)
    else match lookup(handle, column.value.column)
      case LookupFails => ReadFails(Com)
      case Hit(cell) => Value(if cell.Some? then cell.value else 0.0)
  }

  /** The state of the drawing while the transaction is open, or the exception that
      ended the loop. */
  datatype Staged = Staged(entities: map<ObjectId, Entity>) | Failed(error: Exception)

  /** One turn of the loop: an id that names no object makes `GetObject` raise the host's
      exception; an object that is not a pipe is skipped; otherwise both inverts
      are read before anything changes, then the pipe is moved, both structures are
      reconnected and get their sump, and the pipe holds its crown on resize. An end
      that is not attached to an object makes the reconnection raise; whatever the turn
      wrote before is abandoned with the transaction. */
  function ImportOne(entities: map<ObjectId, Entity>, id: ObjectId, startCol: Option<Range>, endCol: Option<Range>, lookup: VLookup): (r: Staged)
    ensures id !in entities ==> r == Failed(Acad)
    ensures id in entities && PipeAt(entities, id).None? ==> r == Staged(entities)
    ensures r.Staged? ==> r.entities.Keys == entities.Keys
    ensures r.Failed? ==> r.error in {Com, NullReference, Acad}
  {
    if id !in entities then Failed(Acad)
    else match PipeAt(entities, id)
    case None => Staged(entities)
    case Some(p) =>
      match ReadInvert(lookup, p.handle, startCol)
      case ReadFails(e) => Failed(e)
      case Value(s) =>
        match ReadInvert(lookup, p.handle, endCol)
        case ReadFails(e) => Failed(e)
        case Value(t) =>
          if !Attached(entities, p.startStructure) || !Attached(entities, p.endStructure) then Failed(Acad)
          else
            var moved := WithInverts(p, s, t);
            var reconnected := WithSump(WithSump(entities[id := PipeEntity(moved)], moved.startStructure.value),
                                        moved.endStructure.value);
            Staged(reconnected[id := PipeEntity(moved.(holdOnResize := Crown))])
  }

  /** The whole loop over `ids`, stopping at the first exception. */
  function ImportAll(entities: map<ObjectId, Entity>, ids: seq<ObjectId>, startCol: Option<Range>, endCol: Option<Range>, lookup: VLookup): (r: Staged)
    ensures r.Staged? ==> r.entities.Keys == entities.Keys
    ensures r.Failed? ==> r.error in {Com, NullReference, Acad}
  {
    if ids == [] then Staged(entities)
    else match ImportAll(entities, ids[..|ids| - 1], startCol, endCol, lookup)
      case Failed(e) => Failed(e)
      case Staged(m) => ImportOne(m, ids[|ids| - 1], startCol, endCol, lookup)
  }

  // ------------------------------------------------------------ the promised result

  /** The pipe as the import leaves it. */
  function Imported(p: Pipe, startCol: Option<Range>, endCol: Option<Range>, lookup: VLookup): Pipe
    requires ReadInvert(lookup, p.handle, startCol).Value? && ReadInvert(lookup, p.handle, endCol).Value?
  {
    WithInverts(p, ReadInvert(lookup, p.handle, startCol).value, ReadInvert(lookup, p.handle, endCol).value)
      .(holdOnResize := Crown)
  }

  /** Whether processing `id` raises: it names no object, or it holds a pipe and one of
      its inverts cannot be read or one of its ends is not attached. */
  predicate FailsOn(entities: map<ObjectId, Entity>, id: ObjectId, startCol: Option<Range>, endCol: Option<Range>, lookup: VLookup)
  {
    id !in entities ||
    (PipeAt(entities, id).Some? &&
     (ReadInvert(lookup, PipeAt(entities, id).value.handle, startCol).ReadFails? ||
      ReadInvert(lookup, PipeAt(entities, id).value.handle, endCol).ReadFails? ||
      !Attached(entities, PipeAt(entities, id).value.startStructure) ||
      !Attached(entities, PipeAt(entities, id).value.endStructure)))
  }

  /** Whether the structure `sid` is connected at either end of `p`. */
  predicate EndsAt(p: Pipe, sid: ObjectId)
  {
    p.startStructure == Some(sid) || p.endStructure == Some(sid)
  }

  /** A pipe with its elevations and hold setting blanked out: what the import never changes. */
  function Plan(p: Pipe): Pipe
  {
    p.(start := p.start.(z := 0.0), end := p.end.(z := 0.0), holdOnResize := Crown)
  }

  /** Two drawings hold the same ids, with the same kind of object under each, the same
      pipes up to elevations and hold setting, the same structure names and the same
      other objects. */
  ghost predicate SameShape(a: map<ObjectId, Entity>, b: map<ObjectId, Entity>)
  {
    && a.Keys == b.Keys
    && (forall x :: x in a ==> (a[x].PipeEntity? <==> b[x].PipeEntity?))
    && (forall x :: x in a ==> (a[x].StructureEntity? <==> b[x].StructureEntity?))
    && (forall x :: x in a && a[x].PipeEntity? ==> Plan(a[x].pipe) == Plan(b[x].pipe))
    && (forall x :: x in a && a[x].StructureEntity? ==> a[x].structure.name == b[x].structure.name)
    && (forall x :: x in a && a[x].OtherEntity? ==> b[x].OtherEntity?)
  }

  lemma SameShapeTransitive(a: map<ObjectId, Entity>, b: map<ObjectId, Entity>, c: map<ObjectId, Entity>)
    requires SameShape(a, b) && SameShape(b, c)
    ensures SameShape(a, c)
  {
  }

  /** The import reads only what it never changes. */
  lemma ImportedDependsOnPlan(p: Pipe, q: Pipe, startCol: Option<Range>, endCol: Option<Range>, lookup: VLookup)
    requires Plan(p) == Plan(q)
    ensures p.handle == q.handle && p.startStructure == q.startStructure && p.endStructure == q.endStructure
    ensures ReadInvert(lookup, p.handle, startCol).Value? && ReadInvert(lookup, p.handle, endCol).Value? ==>
      Imported(p, startCol, endCol, lookup) == Imported(q, startCol, endCol, lookup)
  {
    assert p.start.x == Plan(p).start.x && p.start.y == Plan(p).start.y;
    assert p.end.x == Plan(p).end.x && p.end.y == Plan(p).end.y;
  }

  lemma WithSumpShape(entities: map<ObjectId, Entity>, id: ObjectId)
    ensures SameShape(entities, WithSump(entities, id))
  {
  }

  /** Replacing a pipe by one with the same plan keeps the shape. */
  lemma ReplacePipeShape(m: map<ObjectId, Entity>, id: ObjectId, q: Pipe)
    requires PipeAt(m, id).Some? && Plan(q) == Plan(m[id].pipe)
    ensures SameShape(m, m[id := PipeEntity(q)])
  {
  }

  /** One turn, where it succeeds, keeps the shape of the drawing. */
  lemma ImportOneShape(entities: map<ObjectId, Entity>, id: ObjectId, startCol: Option<Range>, endCol: Option<Range>, lookup: VLookup)
    requires ImportOne(entities, id, startCol, endCol, lookup).Staged?
    ensures SameShape(entities, ImportOne(entities, id, startCol, endCol, lookup).entities)
  {
    if PipeAt(entities, id).Some? {
      var p := PipeAt(entities, id).value;
      var s := ReadInvert(lookup, p.handle, startCol).value;
      var t := ReadInvert(lookup, p.handle, endCol).value;
      var moved := WithInverts(p, s, t);
      var m1 := entities[id := PipeEntity(moved)];
      ReplacePipeShape(entities, id, moved);
      var m2 := WithSump(m1, moved.startStructure.value);
      WithSumpShape(m1, moved.startStructure.value);
      var m3 := WithSump(m2, moved.endStructure.value);
      WithSumpShape(m2, moved.endStructure.value);
      SameShapeTransitive(entities, m1, m2);
      SameShapeTransitive(entities, m2, m3);
      assert PipeAt(m3, id).Some? && Plan(m3[id].pipe) == Plan(moved);
      ReplacePipeShape(m3, id, moved.(holdOnResize := Crown));
      SameShapeTransitive(entities, m3, m3[id := PipeEntity(moved.(holdOnResize := Crown))]);
    }
  }

  /** The whole loop, where it succeeds, keeps the shape of the drawing. */
  lemma {:induction false} ImportAllShape(entities: map<ObjectId, Entity>, ids: seq<ObjectId>, startCol: Option<Range>, endCol: Option<Range>, lookup: VLookup)
    requires ImportAll(entities, ids, startCol, endCol, lookup).Staged?
    ensures SameShape(entities, ImportAll(entities, ids, startCol, endCol, lookup).entities)
  {
    if ids != [] {
      var front := ids[..|ids| - 1];
      ImportAllShape(entities, front, startCol, endCol, lookup);
      var m := ImportAll(entities, front, startCol, endCol, lookup).entities;
      ImportOneShape(m, ids[|ids| - 1], startCol, endCol, lookup);
      SameShapeTransitive(entities, m, ImportAll(entities, ids, startCol, endCol, lookup).entities);
    }
  }

  /** Whether a pipe raises depends only on what the import keeps. */
  lemma FailsOnShape(a: map<ObjectId, Entity>, b: map<ObjectId, Entity>, id: ObjectId, startCol: Option<Range>, endCol: Option<Range>, lookup: VLookup)
    requires SameShape(a, b)
    ensures FailsOn(a, id, startCol, endCol, lookup) <==> FailsOn(b, id, startCol, endCol, lookup)
  {
    if PipeAt(a, id).Some? {
      ImportedDependsOnPlan(a[id].pipe, b[id].pipe, startCol, endCol, lookup);
    }
  }

  /** All or nothing, part one: the loop fails exactly when some id names no object, or
      some pipe among the ids cannot have one of its inverts read or has an end that is
      not attached; a handle missing from the table and a free pipe end are such
      failures, never skips. */
  lemma {:induction false} ImportFailsIff(entities: map<ObjectId, Entity>, ids: seq<ObjectId>, startCol: Option<Range>, endCol: Option<Range>, lookup: VLookup)
    ensures ImportAll(entities, ids, startCol, endCol, lookup).Failed? <==>
      exists k :: 0 <= k < |ids| && FailsOn(entities, ids[k], startCol, endCol, lookup)
    ensures ImportAll(entities, ids, startCol, endCol, lookup).Failed? ==>
      ImportAll(entities, ids, startCol, endCol, lookup).error in {Com, NullReference, Acad}
  {
    if ids != [] {
      var front := ids[..|ids| - 1];
      var last := ids[|ids| - 1];
      ImportFailsIff(entities, front, startCol, endCol, lookup);
      assert forall k :: 0 <= k < |front| ==> front[k] == ids[k];
      match ImportAll(entities, front, startCol, endCol, lookup)
      case Failed(e) =>
        var k :| 0 <= k < |front| && FailsOn(entities, front[k], startCol, endCol, lookup);
        assert FailsOn(entities, ids[k], startCol, endCol, lookup);
      case Staged(m) =>
        ImportAllShape(entities, front, startCol, endCol, lookup);
        FailsOnShape(entities, m, last, startCol, endCol, lookup);
        ImportOneFailsIff(m, last, startCol, endCol, lookup);
        LastFails(entities, ids, startCol, endCol, lookup);
    }
  }

  /** When no earlier id fails, some id fails exactly when the last one does. */
  lemma LastFails(entities: map<ObjectId, Entity>, ids: seq<ObjectId>, startCol: Option<Range>, endCol: Option<Range>, lookup: VLookup)
    requires ids != []
    requires forall k :: 0 <= k < |ids| - 1 ==> !FailsOn(entities, ids[k], startCol, endCol, lookup)
    ensures (exists k :: 0 <= k < |ids| && FailsOn(entities, ids[k], startCol, endCol, lookup)) <==>
      FailsOn(entities, ids[|ids| - 1], startCol, endCol, lookup)
  {
  }

  /** One turn raises exactly when the pipe it processes fails. */
  lemma ImportOneFailsIff(m: map<ObjectId, Entity>, id: ObjectId, startCol: Option<Range>, endCol: Option<Range>, lookup: VLookup)
    ensures ImportOne(m, id, startCol, endCol, lookup).Failed? <==> FailsOn(m, id, startCol, endCol, lookup)
  {
  }

  /** After a successful import, every pipe among the ids sits at its looked-up inverts,
      keeps its X and Y, and holds its crown. */
  lemma {:induction false} ImportedPipes(entities: map<ObjectId, Entity>, ids: seq<ObjectId>, startCol: Option<Range>, endCol: Option<Range>, lookup: VLookup)
    requires ImportAll(entities, ids, startCol, endCol, lookup).Staged?
    ensures forall k :: 0 <= k < |ids| && PipeAt(entities, ids[k]).Some? ==>
      !FailsOn(entities, ids[k], startCol, endCol, lookup) &&
      PipeAt(ImportAll(entities, ids, startCol, endCol, lookup).entities, ids[k])
        == Some(Imported(PipeAt(entities, ids[k]).value, startCol, endCol, lookup))
  {
    ImportFailsIff(entities, ids, startCol, endCol, lookup);
    if ids != [] {
      var front := ids[..|ids| - 1];
      var last := ids[|ids| - 1];
      ImportedPipes(entities, front, startCol, endCol, lookup);
      var m := ImportAll(entities, front, startCol, endCol, lookup).entities;
      var result := ImportAll(entities, ids, startCol, endCol, lookup).entities;
      ImportAllShape(entities, front, startCol, endCol, lookup);
      ImportOnePipes(m, last, startCol, endCol, lookup);
      forall k | 0 <= k < |ids| && PipeAt(entities, ids[k]).Some?
        ensures PipeAt(result, ids[k]) == Some(Imported(PipeAt(entities, ids[k]).value, startCol, endCol, lookup))
      {
        if ids[k] == last {
          ImportedDependsOnPlan(PipeAt(entities, ids[k]).value, m[last].pipe, startCol, endCol, lookup);
        } else {
          assert front[k] == ids[k];
        }
      }
    }
  }

  /** One successful turn imports the pipe it processes and keeps every other pipe. */
  lemma ImportOnePipes(m: map<ObjectId, Entity>, id: ObjectId, startCol: Option<Range>, endCol: Option<Range>, lookup: VLookup)
    requires ImportOne(m, id, startCol, endCol, lookup).Staged?
    ensures PipeAt(m, id).Some? ==>
      PipeAt(ImportOne(m, id, startCol, endCol, lookup).entities, id) == Some(Imported(m[id].pipe, startCol, endCol, lookup))
    ensures forall x :: x != id && PipeAt(m, x).Some? ==>
      PipeAt(ImportOne(m, id, startCol, endCol, lookup).entities, x) == PipeAt(m, x)
  {
  }

  /** After a successful import, every structure at either end of a pipe among the ids
      has its sump controlled by depth, at depth 0.3, and keeps its name. */
  lemma {:induction false} ImportedStructures(entities: map<ObjectId, Entity>, ids: seq<ObjectId>, startCol: Option<Range>, endCol: Option<Range>, lookup: VLookup)
    requires ImportAll(entities, ids, startCol, endCol, lookup).Staged?
    ensures forall k, sid: ObjectId ::
      (0 <= k < |ids| && PipeAt(entities, ids[k]).Some? && StructureAt(entities, sid).Some? &&
       EndsAt(PipeAt(entities, ids[k]).value, sid)) ==>
      StructureAt(ImportAll(entities, ids, startCol, endCol, lookup).entities, sid)
        == Some(SumpByDepth(StructureAt(entities, sid).value))
  {
    if ids != [] {
      var front := ids[..|ids| - 1];
      var last := ids[|ids| - 1];
      ImportedStructures(entities, front, startCol, endCol, lookup);
      var m := ImportAll(entities, front, startCol, endCol, lookup).entities;
      var result := ImportAll(entities, ids, startCol, endCol, lookup).entities;
      ImportAllShape(entities, front, startCol, endCol, lookup);
      ImportOneKeepsSumps(m, last, startCol, endCol, lookup);
      forall k, sid: ObjectId | 0 <= k < |ids| && PipeAt(entities, ids[k]).Some? && StructureAt(entities, sid).Some? &&
        EndsAt(PipeAt(entities, ids[k]).value, sid)
        ensures StructureAt(result, sid) == Some(SumpByDepth(StructureAt(entities, sid).value))
      {
        if k < |front| {
          assert front[k] == ids[k];
        } else {
          ImportedDependsOnPlan(entities[last].pipe, m[last].pipe, startCol, endCol, lookup);
        }
      }
    }
  }

  /** One turn sets the sump of the structures at the pipe's ends and leaves every
      structure it already set as it was. */
  lemma ImportOneKeepsSumps(m: map<ObjectId, Entity>, id: ObjectId, startCol: Option<Range>, endCol: Option<Range>, lookup: VLookup)
    requires ImportOne(m, id, startCol, endCol, lookup).Staged?
    ensures forall sid: ObjectId :: StructureAt(m, sid).Some? ==>
      StructureAt(ImportOne(m, id, startCol, endCol, lookup).entities, sid) == StructureAt(m, sid) ||
      StructureAt(ImportOne(m, id, startCol, endCol, lookup).entities, sid) == Some(SumpByDepth(StructureAt(m, sid).value))
    ensures PipeAt(m, id).Some? ==> forall sid: ObjectId :: StructureAt(m, sid).Some? && EndsAt(m[id].pipe, sid) ==>
      StructureAt(ImportOne(m, id, startCol, endCol, lookup).entities, sid) == Some(SumpByDepth(StructureAt(m, sid).value))
  {
  }

  /** After a successful import, an object that is not a pipe among the ids and not a
      structure at the end of one is exactly as it was; no object is added or removed. */
  lemma {:induction false} ImportTouchesNothingElse(entities: map<ObjectId, Entity>, ids: seq<ObjectId>, startCol: Option<Range>, endCol: Option<Range>, lookup: VLookup)
    requires ImportAll(entities, ids, startCol, endCol, lookup).Staged?
    ensures ImportAll(entities, ids, startCol, endCol, lookup).entities.Keys == entities.Keys
    ensures forall x :: x in entities && !Touched(entities, ids, x) ==>
      ImportAll(entities, ids, startCol, endCol, lookup).entities[x] == entities[x]
  {
    if ids != [] {
      var front := ids[..|ids| - 1];
      var last := ids[|ids| - 1];
      ImportTouchesNothingElse(entities, front, startCol, endCol, lookup);
      ImportAllShape(entities, front, startCol, endCol, lookup);
      var m := ImportAll(entities, front, startCol, endCol, lookup).entities;
      var result := ImportAll(entities, ids, startCol, endCol, lookup).entities;
      assert result == ImportOne(m, last, startCol, endCol, lookup).entities;
      if PipeAt(m, last).Some? {
        ImportedDependsOnPlan(entities[last].pipe, m[last].pipe, startCol, endCol, lookup);
      }
      ImportOneTouches(m, last, startCol, endCol, lookup);
      forall x | x in entities && !Touched(entities, ids, x)
        ensures result[x] == entities[x]
      {
        UntouchedStep(entities, ids, x);
      }
    }
  }

  /** An object the whole loop does not touch is touched neither by the loop before the
      last id nor by the last pipe. */
  lemma UntouchedStep(entities: map<ObjectId, Entity>, ids: seq<ObjectId>, x: ObjectId)
    requires ids != [] && !Touched(entities, ids, x)
    ensures !Touched(entities, ids[..|ids| - 1], x)
    ensures PipeAt(entities, ids[|ids| - 1]).Some? ==>
      x != ids[|ids| - 1] && !EndsAt(PipeAt(entities, ids[|ids| - 1]).value, x)
  {
    var front := ids[..|ids| - 1];
    forall k | 0 <= k < |front| ensures front[k] == ids[k] { }
    if PipeAt(entities, ids[|ids| - 1]).Some? {
      assert 0 <= |ids| - 1 < |ids|;
    }
  }

  /** One successful turn changes only the pipe it processes and the structures at
      its ends. */
  lemma ImportOneTouches(m: map<ObjectId, Entity>, id: ObjectId, startCol: Option<Range>, endCol: Option<Range>, lookup: VLookup)
    requires ImportOne(m, id, startCol, endCol, lookup).Staged?
    ensures ImportOne(m, id, startCol, endCol, lookup).entities.Keys == m.Keys
    ensures forall x :: x in m && (PipeAt(m, id).None? || (x != id && !EndsAt(m[id].pipe, x))) ==>
      ImportOne(m, id, startCol, endCol, lookup).entities[x] == m[x]
  {
  }

  /** The objects a successful import may change: the pipes among the ids and the
      structures at their ends. */
  ghost predicate Touched(entities: map<ObjectId, Entity>, ids: seq<ObjectId>, x: ObjectId)
  {
    exists k :: 0 <= k < |ids| && PipeAt(entities, ids[k]).Some? &&
      (ids[k] == x || PipeAt(entities, ids[k]).value.startStructure == Some(x)
                   || PipeAt(entities, ids[k]).value.endStructure == Some(x))
  }

  /** A network with a readable pipe that has a free end (no structure at its start or
      at its end) can never be imported: the host refuses the reconnection, or an
      earlier failure already ended the loop. */
  lemma FreeEndNeverImports(entities: map<ObjectId, Entity>, ids: seq<ObjectId>, k: nat, startCol: Option<Range>, endCol: Option<Range>, lookup: VLookup)
    requires k < |ids| && PipeAt(entities, ids[k]).Some?
    requires PipeAt(entities, ids[k]).value.startStructure.None? || PipeAt(entities, ids[k]).value.endStructure.None?
    ensures ImportAll(entities, ids, startCol, endCol, lookup).Failed?
  {
    ImportFailsIff(entities, ids, startCol, endCol, lookup);
    assert FailsOn(entities, ids[k], startCol, endCol, lookup);
  }

  /** Once a prefix of the ids fails, the whole loop fails with the same exception. */
  lemma {:induction false} FailureIsFinal(entities: map<ObjectId, Entity>, ids: seq<ObjectId>, k: nat, startCol: Option<Range>, endCol: Option<Range>, lookup: VLookup)
    requires k <= |ids| && ImportAll(entities, ids[..k], startCol, endCol, lookup).Failed?
    ensures ImportAll(entities, ids, startCol, endCol, lookup) == ImportAll(entities, ids[..k], startCol, endCol, lookup)
    decreases |ids| - k
  {
    if k < |ids| {
      assert ids[..k + 1][..k] == ids[..k];
      FailureIsFinal(entities, ids, k + 1, startCol, endCol, lookup);
    } else {
      assert ids[..k] == ids;
    }
  }
}
