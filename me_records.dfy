/**
 * The `MeRecords` builder (src/me/records.rs): it holds the query pairs for
 * the user's records and finishes as a create (POST /v1/me/records), an
 * update or a delete of one record (/v1/me/records/{id}).
 */
module MeRecordsEndpoint {
  import Annis
  import Decimal

  datatype MeRecords = MeRecords(params: Annis.Option<seq<Annis.Param>>) {

    /** `MeRecords::default()`: no params yet. */
    static function Default(): (b: MeRecords)
      ensures b.params.None?
    {
      MeRecords(Annis.None)
    }

    /** `MeRecords::params`: the held params become exactly `ps`, in order; earlier ones are discarded. */
    function Params(ps: seq<Annis.Param>): (b: MeRecords)
      ensures b.params.Some? && b.params.value == ps
    {
      MeRecords(Annis.Some(ps))
    }

    /** `MeRecords::create`: POST /v1/me/records, the held params passed on as they are. */
    function Create(): (s: Annis.Service)
      ensures s.verb == Annis.POST && s.url == Annis.ApiV1 + "me/records"
      ensures s.params == params
    {
      Annis.Service(Annis.POST, Annis.MeRecordsUrl, params)
    }

    /** `MeRecords::patch`: PATCH /v1/me/records/{id}, the held params passed on as they are. */
    function Patch(id: Decimal.Usize): (s: Annis.Service)
      ensures s.verb == Annis.PATCH && s.url == Annis.MeRecordUrl(id)
      ensures s.params == params
    {
      Annis.Service(Annis.PATCH, Annis.MeRecordUrl(id), params)
    }

    /**
     * `MeRecords::detele` as written: it addresses record `id` with PATCH,
     * not DELETE, and drops whatever params were held.
     */
    function Detele(id: Decimal.Usize): (s: Annis.Service)
      ensures s.verb == Annis.PATCH && s.url == Annis.MeRecordUrl(id)
      ensures s.params.None?
    {
      Annis.Service(Annis.PATCH, Annis.MeRecordUrl(id), Annis.None)
    }

    /** The delete the method's name promises: DELETE /v1/me/records/{id} with no params. */
    function Delete(id: Decimal.Usize): (s: Annis.Service)
      ensures s.verb == Annis.DELETE && s.url == Annis.MeRecordUrl(id)
      ensures s.params.None?
    {
      Annis.Service(Annis.DELETE, Annis.MeRecordUrl(id), Annis.None)
    }
  }

  /** A later `params` call replaces an earlier one instead of merging with it. */
  lemma ParamsReplaces(b: MeRecords, first: seq<Annis.Param>, second: seq<Annis.Param>)
    ensures b.Params(first).Params(second) == b.Params(second)
  {
  }

  /** An update built here is the same request as `me_records(Method::Patch, id).params(ps)`. */
  lemma PatchAgreesWithFactory(ps: seq<Annis.Param>, id: Decimal.Usize)
    ensures MeRecords.Default().Params(ps).Patch(id) == Annis.MeRecords(Annis.Method.Patch, id).Params(ps)
  {
  }

  /**
   * A create built here carries only the pairs given, whereas
   * `me_records(Method::Post, id).params(ps)` also carries the seeded
   * `episodes_id` pair after them.
   */
  lemma CreateLacksSeededPair(ps: seq<Annis.Param>, id: Decimal.Usize)
    ensures var built := MeRecords.Default().Params(ps).Create();
            var seeded := Annis.MeRecords(Annis.Method.Post, id).Params(ps);
            built.verb == seeded.verb && built.url == seeded.url
            && seeded.params.value == built.params.value + [("episodes_id", Decimal.Format(id))]
  {
  }

  /**
   * `detele` does not do what `me_records(Method::Delete, id)` does: for every
   * id and whatever params were held, it sends PATCH where that sends DELETE.
   */
  lemma DeteleIsNotDelete(b: MeRecords, id: Decimal.Usize)
    ensures b.Detele(id).verb != Annis.MeRecords(Annis.Method.Delete, id).verb
    ensures b.Detele(id) != Annis.MeRecords(Annis.Method.Delete, id)
  {
  }

  /** The corrected delete is exactly `me_records(Method::Delete, id)`, whatever params were held. */
  lemma DeleteAgreesWithFactory(b: MeRecords, id: Decimal.Usize)
    ensures b.Delete(id) == Annis.MeRecords(Annis.Method.Delete, id)
  {
  }
}
