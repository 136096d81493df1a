/** Saved playbooks: recorded and copied scenarios (storage key `playbooks`). */
module PlaybookStore {
  import opened Text
  import opened Lists
  import Engine

  datatype SavedPlaybook = SavedPlaybook(
    id: string, name: string, steps: seq<Engine.Step>, createdAt: string, updatedAt: string)

  /** What `savePlaybook` reads from its argument; '' and None stand for absent. */
  datatype PlaybookDraft = PlaybookDraft(id: string, name: string, steps: Option<seq<Engine.Step>>, createdAt: string)

  const DEFAULT_NAME := "Без названия"

  function PlaybookId(p: SavedPlaybook): string { p.id }

  /** The record `savePlaybook` writes; the uuid and the clock are parameters. */
  function SaveRecord(d: PlaybookDraft, freshId: string, now: string): (r: SavedPlaybook)
    ensures r.id == (if d.id != "" then d.id else freshId)
    ensures r.name == (if d.name != "" then d.name else DEFAULT_NAME)
    ensures d.steps.None? ==> r.steps == []
    ensures d.steps.Some? ==> r.steps == d.steps.value
    ensures d.createdAt != "" ==> r.createdAt == d.createdAt
    ensures d.createdAt == "" ==> r.createdAt == now
    ensures r.updatedAt == now
  {
    SavedPlaybook(
      if d.id != "" then d.id else freshId,
      if d.name != "" then d.name else DEFAULT_NAME,
      if d.steps.Some? then d.steps.value else [],
      if d.createdAt != "" then d.createdAt else now,
      now)
  }

  /** One imported item: replace the first record with its id by the item
      stamped with `updatedAt`, or append it with its id or a fresh one. */
  function ImportOne(s: seq<SavedPlaybook>, pb: SavedPlaybook, freshId: string, now: string): (r: seq<SavedPlaybook>)
    ensures pb.id in Keys(s, PlaybookId) ==> |r| == |s|
    ensures pb.id !in Keys(s, PlaybookId) ==> |r| == |s| + 1 && r[..|s|] == s
    ensures forall i :: 0 <= i < |s| && s[i].id != pb.id ==> r[i] == s[i]
    ensures FindIndex(s, PlaybookId, pb.id).Some? ==>
      r[FindIndex(s, PlaybookId, pb.id).value] == pb.(updatedAt := now)
    ensures pb.id !in Keys(s, PlaybookId) ==> r[|s|] == pb.(id := if pb.id != "" then pb.id else freshId)
  {
    match FindIndex(s, PlaybookId, pb.id)
    case Some(i) => s[i := pb.(updatedAt := now)]
    case None => s + [pb.(id := if pb.id != "" then pb.id else freshId)]
  }

  /** The list after the loop over the imported items; item i draws freshIds[i]. */
  function ImportAll(s: seq<SavedPlaybook>, items: seq<SavedPlaybook>, freshIds: seq<string>, now: string): (r: seq<SavedPlaybook>)
    requires |freshIds| == |items|
  {
    if items == [] then s
    else
      var n := |items| - 1;
      ImportOne(ImportAll(s, items[..n], freshIds[..n], now), items[n], freshIds[n], now)
  }

  /** An import never drops or reorders stored records: the list grows by at
      most one per item and the ids of the stored records stay where they were. */
  lemma {:induction false} ImportAllBounds(s: seq<SavedPlaybook>, items: seq<SavedPlaybook>, freshIds: seq<string>, now: string)
    requires |freshIds| == |items|
    ensures var r := ImportAll(s, items, freshIds, now);
      |s| <= |r| <= |s| + |items| && forall i :: 0 <= i < |s| ==> r[i].id == s[i].id
  {
    if items != [] {
      var n := |items| - 1;
      ImportAllBounds(s, items[..n], freshIds[..n], now);
      var p := ImportAll(s, items[..n], freshIds[..n], now);
      forall i | 0 <= i < |s| ensures ImportAll(s, items, freshIds, now)[i].id == s[i].id {
        assert p[i].id == s[i].id;
      }
    }
  }

  /** One imported item keeps the ids distinct when a drawn fresh id is unused. */
  lemma ImportOneKeepsKeysUnique(s: seq<SavedPlaybook>, pb: SavedPlaybook, freshId: string, now: string)
    requires NoDup(Keys(s, PlaybookId))
    requires freshId !in Keys(s, PlaybookId)
    ensures NoDup(Keys(ImportOne(s, pb, freshId, now), PlaybookId))
  {
    var r := ImportOne(s, pb, freshId, now);
    var ks := Keys(r, PlaybookId);
    var ks0 := Keys(s, PlaybookId);
    match FindIndex(s, PlaybookId, pb.id)
    case Some(k) =>
      forall a, b | 0 <= a < b < |ks| ensures ks[a] != ks[b] {
        assert ks0[a] == s[a].id && ks0[b] == s[b].id;
      }
    case None =>
      forall a, b | 0 <= a < b < |ks| ensures ks[a] != ks[b] {
        assert ks0[a] == s[a].id;
        if b < |s| {
          assert ks0[b] == s[b].id;
        }
      }
  }

  /** Saving keeps the ids distinct, and a lookup of the saved id then finds
      the saved record. */
  lemma SaveThenGet(s: seq<SavedPlaybook>, d: PlaybookDraft, freshId: string, now: string)
    requires NoDup(Keys(s, PlaybookId))
    ensures var rec := SaveRecord(d, freshId, now);
      var r := Upsert(s, PlaybookId, rec);
      && NoDup(Keys(r, PlaybookId))
      && FindById(r, PlaybookId, rec.id) == Some(rec)
      && (|r| == |s| || |r| == |s| + 1)
  {
    UpsertKeepsKeysUnique(s, PlaybookId, SaveRecord(d, freshId, now));
  }

  class PlaybookLibrary {
    var playbooks: seq<SavedPlaybook>

    constructor()
      ensures playbooks == []
    {
      playbooks := [];
    }

    /** `savePlaybook`: replace the record with the same id at its index, or
        append. */
    method SavePlaybook(d: PlaybookDraft, freshId: string, now: string) returns (record: SavedPlaybook)
      modifies this
      ensures record == SaveRecord(d, freshId, now)
      ensures playbooks == Upsert(old(playbooks), PlaybookId, record)
    {
      record := SaveRecord(d, freshId, now);
      var idx := FindIndex(playbooks, PlaybookId, record.id);
      if idx.Some? {
        playbooks := playbooks[idx.value := record];
      } else {
        playbooks := playbooks + [record];
      }
    }

    /** `getPlaybook(id)`: the first record with the id, or null. */
    method GetPlaybook(id: string) returns (r: Option<SavedPlaybook>)
      ensures r == FindById(playbooks, PlaybookId, id)
      ensures r.Some? ==> r.value in playbooks && r.value.id == id
      ensures r.None? ==> forall i :: 0 <= i < |playbooks| ==> playbooks[i].id != id
    {
      r := FindById(playbooks, PlaybookId, id);
    }

    method DeletePlaybook(id: string)
      modifies this
      ensures playbooks == Without(old(playbooks), PlaybookId, id)
    {
      playbooks := Without(playbooks, PlaybookId, id);
    }

    /** `importPlaybooks`: a non-array throws; otherwise each item in turn
        replaces or is appended, and the final length is returned. */
    method ImportPlaybooks(imported: Option<seq<SavedPlaybook>>, freshIds: seq<string>, now: string)
      returns (r: Result<nat>)
      requires imported.Some? ==> |freshIds| == |imported.value|
      modifies this
      ensures imported.None? ==> r == Failure(NOT_AN_ARRAY) && playbooks == old(playbooks)
      ensures imported.Some? ==> playbooks == ImportAll(old(playbooks), imported.value, freshIds, now)
      ensures imported.Some? ==> r == Ok(|playbooks|)
    {
      if imported.None? {
        return Failure(NOT_AN_ARRAY);
      }
      var items := imported.value;
      ghost var start := playbooks;
      for i := 0 to |items|
        invariant playbooks == ImportAll(start, items[..i], freshIds[..i], now)
      {
        assert items[..i + 1][..i] == items[..i];
        assert freshIds[..i + 1][..i] == freshIds[..i];
        var pb := items[i];
        var existing := FindIndex(playbooks, PlaybookId, pb.id);
        if existing.Some? {
          playbooks := playbooks[existing.value := pb.(updatedAt := now)];
        } else {
          playbooks := playbooks + [pb.(id := if pb.id != "" then pb.id else freshIds[i])];
        }
      }
      assert items[..|items|] == items;
      assert freshIds[..|items|] == freshIds;
      r := Ok(|playbooks|);
    }
  }
}
