/** The knowledge base: tagged notes with term-count search (storage key
    `knowledgeBase`). */
module KnowledgeStore {
  import opened Text
  import opened Lists

  datatype Entry = Entry(id: string, title: string, text: string, tags: seq<string>, createdAt: string)

  /** The fields `addKnowledgeEntry` reads; '' stands for an absent string. */
  datatype EntryInput = EntryInput(title: string, text: string, tags: Option<seq<string>>)

  /** An update object: None is a field it does not carry. */
  datatype EntryPatch = EntryPatch(
    id: Option<string>, title: Option<string>, text: Option<string>,
    tags: Option<seq<string>>, createdAt: Option<string>)

  function EntryId(e: Entry): string { e.id }

  /** The record `addKnowledgeEntry` stores; the id and the clock are parameters. */
  function NewEntry(input: EntryInput, id: string, now: string): (e: Entry)
    ensures e.id == id && e.createdAt == now
    ensures e.title == input.title && e.text == input.text
    ensures input.tags.None? ==> e.tags == []
    ensures input.tags.Some? ==> e.tags == input.tags.value
  {
    Entry(id, input.title, input.text, if input.tags.Some? then input.tags.value else [], now)
  }

  /** `{ ...entry, ...updates }`. */
  function MergePatch(e: Entry, p: EntryPatch): Entry {
    Entry(
      if p.id.Some? then p.id.value else e.id,
      if p.title.Some? then p.title.value else e.title,
      if p.text.Some? then p.text.value else e.text,
      if p.tags.Some? then p.tags.value else e.tags,
      if p.createdAt.Some? then p.createdAt.value else e.createdAt)
  }

  /** An empty update changes nothing, and merging is last-write-wins: two
      successive updates are one update by their merge. */
  lemma MergePatchLaws(e: Entry, p: EntryPatch, q: EntryPatch)
    ensures MergePatch(e, EntryPatch(None, None, None, None, None)) == e
    ensures MergePatch(MergePatch(e, p), q) == MergePatch(e, EntryPatch(
      if q.id.Some? then q.id else p.id,
      if q.title.Some? then q.title else p.title,
      if q.text.Some? then q.text else p.text,
      if q.tags.Some? then q.tags else p.tags,
      if q.createdAt.Some? then q.createdAt else p.createdAt))
  {
  }

  /** The search text: `${title} ${text} ${tags.join(' ')}`. */
  function EntryHaystack(e: Entry): string {
    e.title + " " + e.text + " " + Join(e.tags, " ")
  }

  /** `searchKnowledge(entries, query)`. */
  function SearchKnowledge(entries: seq<Entry>, query: string): (r: seq<Entry>)
    ensures Blank(query) ==> r == entries
    ensures |r| <= |entries|
    ensures !Blank(query) ==> forall e :: e in r <==>
      e in entries && TermCount(Lower(EntryHaystack(e)), Terms(query)) > 0
  {
    SearchMatches(entries, EntryHaystack, query);
    Search(entries, EntryHaystack, query)
  }

  /** `{ ...e, id: e.id || uuid, createdAt: e.createdAt || now }`. */
  function StampImported(e: Entry, freshId: string, now: string): (s: Entry)
    ensures e.id != "" ==> s.id == e.id
    ensures e.createdAt != "" ==> s.createdAt == e.createdAt
    ensures s.title == e.title && s.text == e.text && s.tags == e.tags
  {
    e.(id := if e.id != "" then e.id else freshId, createdAt := if e.createdAt != "" then e.createdAt else now)
  }

  class KnowledgeBase {
    var entries: seq<Entry>

    constructor()
      ensures entries == []
    {
      entries := [];
    }

    /** `addKnowledgeEntry`: append exactly one record. */
    method AddKnowledgeEntry(input: EntryInput, freshId: string, now: string) returns (record: Entry)
      modifies this
      ensures record == NewEntry(input, freshId, now)
      ensures entries == old(entries) + [record]
    {
      record := NewEntry(input, freshId, now);
      entries := entries + [record];
    }

    method DeleteKnowledgeEntry(id: string)
      modifies this
      ensures entries == Without(old(entries), EntryId, id)
    {
      entries := Without(entries, EntryId, id);
    }

    /** `updateKnowledgeEntry`: merge in place at the first record with the
        id, or return null and change nothing. */
    method UpdateKnowledgeEntry(id: string, patch: EntryPatch) returns (r: Option<Entry>)
      modifies this
      ensures FindIndex(old(entries), EntryId, id).None? ==> r.None? && entries == old(entries)
      ensures FindIndex(old(entries), EntryId, id).Some? ==>
        var i := FindIndex(old(entries), EntryId, id).value;
        r == Some(MergePatch(old(entries)[i], patch)) && entries == old(entries)[i := r.value]
    {
      var idx := FindIndex(entries, EntryId, id);
      if idx.None? {
        return None;
      }
      var merged := MergePatch(entries[idx.value], patch);
      entries := entries[idx.value := merged];
      r := Some(merged);
    }

    /** `importKnowledge`: a non-array throws; otherwise the stored entries
        followed by the stamped imports, and the combined length. */
    method ImportKnowledge(imported: Option<seq<Entry>>, freshIds: seq<string>, now: string)
      returns (r: Result<nat>)
      requires imported.Some? ==> |freshIds| == |imported.value|
      modifies this
      ensures imported.None? ==> r == Failure(NOT_AN_ARRAY) && entries == old(entries)
      ensures imported.Some? ==> entries == old(entries) + StampAll(imported.value, freshIds, now, StampImported)
      ensures imported.Some? ==> r == Ok(|old(entries)| + |imported.value|)
    {
      if imported.None? {
        return Failure(NOT_AN_ARRAY);
      }
      entries := entries + StampAll(imported.value, freshIds, now, StampImported);
      r := Ok(|entries|);
    }
  }
}
