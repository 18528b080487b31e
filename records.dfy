/**
 * The `Records` builder (src/records.rs): it holds the query pairs for
 * GET /v1/records and turns into a `Service` when finished.
 */
module RecordsEndpoint {
  import Annis

  datatype Records = Records(params: Annis.Option<seq<Annis.Param>>) {

    /** `Records::default()`: no params yet. */
    static function Default(): (b: Records)
      ensures b.params.None?
    {
      Records(Annis.None)
    }

    /** `Records::params`: the held params become exactly `ps`, in order; earlier ones are discarded. */
    function Params(ps: seq<Annis.Param>): (b: Records)
      ensures b.params.Some? && b.params.value == ps
    {
      Records(Annis.Some(ps))
    }

    /** `Records::get`: GET /v1/records, the held params passed on as they are. */
    function Get(): (s: Annis.Service)
      ensures s.verb == Annis.GET && s.url == Annis.ApiV1 + "records"
      ensures s.params == params
    {
      Annis.Service(Annis.GET, Annis.RecordsUrl, params)
    }
  }

  /** A later `params` call replaces an earlier one instead of merging with it. */
  lemma ParamsReplaces(b: Records, first: seq<Annis.Param>, second: seq<Annis.Param>)
    ensures b.Params(first).Params(second) == b.Params(second)
  {
  }

  /** One `params` call on a fresh builder asks for the same request as `records().params(ps)`. */
  lemma AgreesWithFactory(ps: seq<Annis.Param>)
    ensures Records.Default().Params(ps).Get() == Annis.Records().Params(ps)
  {
  }
}
