/**
 * The `Works` builder (src/works.rs): it holds the query pairs for
 * GET /v1/works and turns into a `Service` when finished.
 */
module WorksEndpoint {
  import Annis

  datatype Works = Works(params: Annis.Option<seq<Annis.Param>>) {

    /** `Works::default()`: no params yet. */
    static function Default(): (b: Works)
      ensures b.params.None?
    {
      Works(Annis.None)
    }

    /** `Works::params`: the held params become exactly `ps`, in order; earlier ones are discarded. */
    function Params(ps: seq<Annis.Param>): (b: Works)
      ensures b.params.Some? && b.params.value == ps
    {
      Works(Annis.Some(ps))
    }

    /** `Works::get`: GET /v1/works, the held params passed on as they are. */
    function Get(): (s: Annis.Service)
      ensures s.verb == Annis.GET && s.url == Annis.ApiV1 + "works"
      ensures s.params == params
    {
      Annis.Service(Annis.GET, Annis.WorksUrl, params)
    }
  }

  /** A later `params` call replaces an earlier one instead of merging with it. */
  lemma ParamsReplaces(b: Works, first: seq<Annis.Param>, second: seq<Annis.Param>)
    ensures b.Params(first).Params(second) == b.Params(second)
  {
  }

  /** One `params` call on a fresh builder asks for the same request as `works().params(ps)`. */
  lemma AgreesWithFactory(ps: seq<Annis.Param>)
    ensures Works.Default().Params(ps).Get() == Annis.Works().Params(ps)
  {
  }

  /**
   * Over two `params` calls the builder and `Service::params` part ways:
   * the builder keeps only the second list, the service prepends it to the
   * first. They ask for the same request exactly when the first list is empty.
   */
  lemma ReplaceAndPrependAgreeIff(first: seq<Annis.Param>, second: seq<Annis.Param>)
    ensures Works.Default().Params(first).Params(second).Get() == Annis.Works().Params(first).Params(second)
            <==> first == []
  {
    var prepended := Annis.Works().Params(first).Params(second);
    assert prepended.params.value == second + first;
    if second + first == second {
      assert |second + first| == |second|;
    }
  }
}
