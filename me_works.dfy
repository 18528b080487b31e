/**
 * The `MeWorks` builder (src/me/works.rs): it holds the query pairs for
 * GET /v1/me/works and turns into a `Service` when finished.
 */
module MeWorksEndpoint {
  import Annis

  datatype MeWorks = MeWorks(params: Annis.Option<seq<Annis.Param>>) {

    /** `MeWorks::default()`: no params yet. */
    static function Default(): (b: MeWorks)
      ensures b.params.None?
    {
      MeWorks(Annis.None)
    }

    /** `MeWorks::params`: the held params become exactly `ps`, in order; earlier ones are discarded. */
    function Params(ps: seq<Annis.Param>): (b: MeWorks)
      ensures b.params.Some? && b.params.value == ps
    {
      MeWorks(Annis.Some(ps))
    }

    /** `MeWorks::get`: GET /v1/me/works, the held params passed on as they are. */
    function Get(): (s: Annis.Service)
      ensures s.verb == Annis.GET && s.url == Annis.ApiV1 + "me/works"
      ensures s.params == params
    {
      Annis.Service(Annis.GET, Annis.MeWorksUrl, params)
    }
  }

  /** A later `params` call replaces an earlier one instead of merging with it. */
  lemma ParamsReplaces(b: MeWorks, first: seq<Annis.Param>, second: seq<Annis.Param>)
    ensures b.Params(first).Params(second) == b.Params(second)
  {
  }

  /** One `params` call on a fresh builder asks for the same request as `me_works().params(ps)`. */
  lemma AgreesWithFactory(ps: seq<Annis.Param>)
    ensures MeWorks.Default().Params(ps).Get() == Annis.MeWorks().Params(ps)
  {
  }
}
