/** Training examples: operator confirmations and corrections of scraped
    ticket data (storage key `trainingExamples`). */
module TrainingStore {
  import opened Text
  import opened Values
  import opened Lists

  datatype Example = Example(
    id: string, ts: string, ticketText: string, metadata: Record, chosenCase: string,
    params: Record, result: string, corrections: string)

  /** The fields `addTrainingExample` reads; '' and None stand for absent. */
  datatype ExampleInput = ExampleInput(
    ticketText: string, metadata: Option<Record>, chosenCase: string,
    params: Option<Record>, result: string, corrections: string)

  const DEFAULT_RESULT := "OK"

  function ExampleId(e: Example): string { e.id }

  /** The record `addTrainingExample` stores: given fields are kept and
      omitted ones take their defaults. */
  function NewExample(input: ExampleInput, id: string, now: string): (e: Example)
    ensures e.id == id && e.ts == now && e.ticketText == input.ticketText
    ensures e.result == (if input.result == "" then DEFAULT_RESULT else input.result)
    ensures e.chosenCase == input.chosenCase && e.corrections == input.corrections
    ensures input.metadata.None? ==> e.metadata == map[]
    ensures input.params.None? ==> e.params == map[]
    ensures input.metadata.Some? ==> e.metadata == input.metadata.value
    ensures input.params.Some? ==> e.params == input.params.value
  {
    Example(id, now, input.ticketText,
      if input.metadata.Some? then input.metadata.value else map[],
      input.chosenCase,
      if input.params.Some? then input.params.value else map[],
      if input.result == "" then DEFAULT_RESULT else input.result,
      input.corrections)
  }

  /** `{ ...e, id: e.id || uuid, ts: e.ts || now }`. */
  function StampImported(e: Example, freshId: string, now: string): (s: Example)
    ensures e.id != "" ==> s.id == e.id
    ensures e.ts != "" ==> s.ts == e.ts
    ensures s.ticketText == e.ticketText && s.result == e.result && s.params == e.params
  {
    e.(id := if e.id != "" then e.id else freshId, ts := if e.ts != "" then e.ts else now)
  }

  class TrainingSet {
    var examples: seq<Example>

    constructor()
      ensures examples == []
    {
      examples := [];
    }

    /** `addTrainingExample`: append exactly one record. */
    method AddTrainingExample(input: ExampleInput, freshId: string, now: string) returns (record: Example)
      modifies this
      ensures record == NewExample(input, freshId, now)
      ensures examples == old(examples) + [record]
    {
      record := NewExample(input, freshId, now);
      examples := examples + [record];
    }

    /** `getTrainingExamples`: the stored list as it is. */
    method GetTrainingExamples() returns (r: seq<Example>)
      ensures r == examples
    {
      r := examples;
    }

    method DeleteTrainingExample(id: string)
      modifies this
      ensures examples == Without(old(examples), ExampleId, id)
    {
      examples := Without(examples, ExampleId, id);
    }

    /** `importTrainingExamples`: a non-array throws; otherwise the stored
        examples followed by the stamped imports, and the total length. */
    method ImportTrainingExamples(imported: Option<seq<Example>>, freshIds: seq<string>, now: string)
      returns (r: Result<nat>)
      requires imported.Some? ==> |freshIds| == |imported.value|
      modifies this
      ensures imported.None? ==> r == Failure(NOT_AN_ARRAY) && examples == old(examples)
      ensures imported.Some? ==> examples == old(examples) + StampAll(imported.value, freshIds, now, StampImported)
      ensures imported.Some? ==> r == Ok(|old(examples)| + |imported.value|)
    {
      if imported.None? {
        return Failure(NOT_AN_ARRAY);
      }
      examples := examples + StampAll(imported.value, freshIds, now, StampImported);
      r := Ok(|examples|);
    }
  }
}
