/** The in-memory store: whole records by review id, and an index of dedupe keys. */
module Store {
  import opened Wrappers
  import opened Types
  import opened Dedupe

  /** Looking a record up through the index. */
  function Lookup(records: map<string, Record>, index: map<string, string>, key: string): Option<Record> {
    if key in index && index[key] in records then Some(records[index[key]]) else None
  }

  function Indexed(index: map<string, string>, r: Record): map<string, string> {
    if r.review.dedupeKey != "" then index[r.review.dedupeKey := r.review.reviewId] else index
  }

  /** `out` holds the records of the reviews `ids`, which are all reviews, each once. */
  ghost predicate Lists(records: map<string, Record>, ids: seq<string>, out: seq<Record>) {
    && Distinct(ids) && (forall id :: id in ids <==> id in records)
    && |ids| == |out| && forall i :: 0 <= i < |out| ==> ids[i] in records && out[i] == records[ids[i]]
  }

  class MemoryStore {
    var records: map<string, Record>
    var dedupeIndex: map<string, string>

    constructor ()
      ensures records == map[] && dedupeIndex == map[]
    {
      records := map[];
      dedupeIndex := map[];
    }

    method Save(r: Record)
      modifies this
      ensures records == old(records)[r.review.reviewId := r]
      ensures dedupeIndex == Indexed(old(dedupeIndex), r)
    {
      records := records[r.review.reviewId := r];
      if r.review.dedupeKey != "" {
        dedupeIndex := dedupeIndex[r.review.dedupeKey := r.review.reviewId];
      }
    }

    method Get(reviewId: string) returns (r: Result<Record, Error>)
      ensures r == if reviewId in records then Success(records[reviewId]) else Failure(NotFound)
    {
      if reviewId !in records {
        return Failure(NotFound);
      }
      return Success(records[reviewId]);
    }

    method FindByDedupeKey(key: string) returns (r: Result<Record, Error>)
      ensures r == match Lookup(records, dedupeIndex, key) case Some(x) => Success(x) case None => Failure(NotFound)
    {
      if key !in dedupeIndex {
        return Failure(NotFound);
      }
      var reviewId := dedupeIndex[key];
      if reviewId !in records {
        return Failure(NotFound);
      }
      return Success(records[reviewId]);
    }

    /** Every record once, in an order the caller cannot rely on. */
    method List() returns (out: seq<Record>)
      ensures exists ids :: Lists(records, ids, out)
    {
      out := [];
      ghost var ids: seq<string> := [];
      var rest := records.Keys;
      while rest != {}
        invariant rest <= records.Keys
        invariant Distinct(ids) && forall id :: id in ids <==> id in records && id !in rest
        invariant |ids| == |out| && forall i :: 0 <= i < |out| ==> ids[i] in records && out[i] == records[ids[i]]
        decreases |rest|
      {
        var id :| id in rest;
        out := out + [records[id]];
        ids := ids + [id];
        rest := rest - {id};
      }
      assert Lists(records, ids, out);
    }
  }
}
