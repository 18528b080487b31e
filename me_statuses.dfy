/**
 * The `MeStatuses` builder (src/me/statuses.rs): it holds the query pairs for
 * POST /v1/me/statuses and turns into a `Service` when finished.
 */
module MeStatusesEndpoint {
  import Annis

  datatype MeStatuses = MeStatuses(params: Annis.Option<seq<Annis.Param>>) {

    /** `MeStatuses::default()`: no params yet. */
    static function Default(): (b: MeStatuses)
      ensures b.params.None?
    {
      MeStatuses(Annis.None)
    }

    /** `MeStatuses::params`: the held params become exactly `ps`, in order; earlier ones are discarded. */
    function Params(ps: seq<Annis.Param>): (b: MeStatuses)
      ensures b.params.Some? && b.params.value == ps
    {
      MeStatuses(Annis.Some(ps))
    }

    /** `MeStatuses::create`: POST /v1/me/statuses, the held params passed on as they are. */
    function Create(): (s: Annis.Service)
      ensures s.verb == Annis.POST && s.url == Annis.ApiV1 + "me/statuses"
      ensures s.params == params
    {
      Annis.Service(Annis.POST, Annis.MeStatusesUrl, params)
    }
  }

  /** A later `params` call replaces an earlier one instead of merging with it. */
  lemma ParamsReplaces(b: MeStatuses, first: seq<Annis.Param>, second: seq<Annis.Param>)
    ensures b.Params(first).Params(second) == b.Params(second)
  {
  }

  /** One `params` call on a fresh builder asks for the same request as `me_statuses().params(ps)`. */
  lemma AgreesWithFactory(ps: seq<Annis.Param>)
    ensures MeStatuses.Default().Params(ps).Create() == Annis.MeStatuses().Params(ps)
  {
  }
}
