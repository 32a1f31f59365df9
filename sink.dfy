/**
 * The metrics collection: an append-only store of documents. The only
 * operation the agent uses is `insert_one`.
 */
module Sink {

  import opened Records

  class MetricsCollection {
    /** The documents in insertion order. */
    var documents: seq<Document>

    /** Every stored document is a well-formed measurement. */
    ghost predicate Valid()
      reads this
    {
      forall i :: 0 <= i < |documents| ==> MeasurementRecord(documents[i])
    }

    constructor ()
      ensures documents == [] && Valid()
    {
      documents := [];
    }

    /** Appends one document; the earlier ones stay as they were. */
    method InsertOne(doc: Document)
      modifies this
      ensures documents == old(documents) + [doc]
      ensures Valid() <==> old(Valid()) && MeasurementRecord(doc)
    {
      ghost var before := documents;
      documents := documents + [doc];
      assert forall i :: 0 <= i < |before| ==> documents[i] == before[i];
      assert documents[|before|] == doc;
    }
  }
}
