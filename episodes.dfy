/**
 * The `Episodes` builder (src/episodes.rs): it holds the query pairs for
 * GET /v1/episodes and turns into a `Service` when finished.
 */
module EpisodesEndpoint {
  import Annis

  datatype Episodes = Episodes(params: Annis.Option<seq<Annis.Param>>) {

    /** `Episodes::default()`: no params yet. */
    static function Default(): (b: Episodes)
      ensures b.params.None?
    {
      Episodes(Annis.None)
    }

    /** `Episodes::params`: the held params become exactly `ps`, in order; earlier ones are discarded. */
    function Params(ps: seq<Annis.Param>): (b: Episodes)
      ensures b.params.Some? && b.params.value == ps
    {
      Episodes(Annis.Some(ps))
    }

    /** `Episodes::get`: GET /v1/episodes, the held params passed on as they are. */
    function Get(): (s: Annis.Service)
      ensures s.verb == Annis.GET && s.url == Annis.ApiV1 + "episodes"
      ensures s.params == params
    {
      Annis.Service(Annis.GET, Annis.EpisodesUrl, params)
    }
  }

  /** A later `params` call replaces an earlier one instead of merging with it. */
  lemma ParamsReplaces(b: Episodes, first: seq<Annis.Param>, second: seq<Annis.Param>)
    ensures b.Params(first).Params(second) == b.Params(second)
  {
  }

  /** One `params` call on a fresh builder asks for the same request as `episodes().params(ps)`. */
  lemma AgreesWithFactory(ps: seq<Annis.Param>)
    ensures Episodes.Default().Params(ps).Get() == Annis.Episodes().Params(ps)
  {
  }
}
