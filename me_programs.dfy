/**
 * The `MePrograms` builder (src/me/programs.rs): it holds the query pairs for
 * GET /v1/me/programs and turns into a `Service` when finished.
 */
module MeProgramsEndpoint {
  import Annis

  datatype MePrograms = MePrograms(params: Annis.Option<seq<Annis.Param>>) {

    /** `MePrograms::default()`: no params yet. */
    static function Default(): (b: MePrograms)
      ensures b.params.None?
    {
      MePrograms(Annis.None)
    }

    /** `MePrograms::params`: the held params become exactly `ps`, in order; earlier ones are discarded. */
    function Params(ps: seq<Annis.Param>): (b: MePrograms)
      ensures b.params.Some? && b.params.value == ps
    {
      MePrograms(Annis.Some(ps))
    }

    /** `MePrograms::get`: GET /v1/me/programs, the held params passed on as they are. */
    function Get(): (s: Annis.Service)
      ensures s.verb == Annis.GET && s.url == Annis.ApiV1 + "me/programs"
      ensures s.params == params
    {
      Annis.Service(Annis.GET, Annis.MeProgramsUrl, params)
    }
  }

  /** A later `params` call replaces an earlier one instead of merging with it. */
  lemma ParamsReplaces(b: MePrograms, first: seq<Annis.Param>, second: seq<Annis.Param>)
    ensures b.Params(first).Params(second) == b.Params(second)
  {
  }

  /** One `params` call on a fresh builder asks for the same request as `me_programs().params(ps)`. */
  lemma AgreesWithFactory(ps: seq<Annis.Param>)
    ensures MePrograms.Default().Params(ps).Get() == Annis.MePrograms().Params(ps)
  {
  }
}
