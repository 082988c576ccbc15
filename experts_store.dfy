/**
 * `src/store/experts.ts`: the expert answers brought in from CSV and the
 * classification given to each response. The classification record is not
 * part of this model's types, so the store is generic in it; persistence is
 * left out.
 */
module ExpertsStore {
  import opened CsvImport

  class Store<Classification> {
    var expertResponses: seq<ExpertResponse>
    var classifications: map<string, Classification>

    /** Lines 17-18: nothing imported, nothing classified. */
    constructor ()
      ensures expertResponses == [] && classifications == map[]
    {
      expertResponses := [];
      classifications := map[];
    }

    /** Line 19: the list is replaced; the classifications stay. */
    method SetExpertResponses(responses: seq<ExpertResponse>)
      modifies this
      ensures expertResponses == responses && classifications == old(classifications)
    {
      expertResponses := responses;
    }

    /** Lines 20-23: appended at the end. */
    method AddExpertResponse(response: ExpertResponse)
      modifies this
      ensures expertResponses == old(expertResponses) + [response] && classifications == old(classifications)
    {
      expertResponses := expertResponses + [response];
    }

    /** Lines 24-30: one key inserted or overwritten, every other key kept. */
    method SetClassification(responseId: string, classification: Classification)
      modifies this
      ensures classifications.Keys == old(classifications).Keys + {responseId}
      ensures classifications[responseId] == classification
      ensures forall id :: id in old(classifications) && id != responseId ==> classifications[id] == old(classifications)[id]
      ensures expertResponses == old(expertResponses)
    {
      classifications := classifications[responseId := classification];
    }

    /** Line 31: both the list and the classifications are emptied. */
    method ClearExpertResponses()
      modifies this
      ensures expertResponses == [] && classifications == map[]
    {
      expertResponses := [];
      classifications := map[];
    }
  }
}
