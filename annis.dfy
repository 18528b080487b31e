/**
 * The request descriptors of the `annis` crate (src/lib.rs): a `Service` names
 * the HTTP method and URL of one Annict endpoint together with the query
 * pairs to send. A `reqwest::RequestBuilder` is reduced to its method and URL;
 * sending the request is not part of this model.
 */
module Annis {
  import Decimal

  datatype Option<+T> = None | Some(value: T) {
    function GetOr(default: T): T {
      match this
      case Some(v) => v
      case None => default
    }
  }

  /** The HTTP methods the crate issues. */
  datatype HttpMethod = GET | POST | PATCH | DELETE

  /** One query pair, key then value. */
  type Param = (string, string)

  const WorksUrl: string := "https://api.annict.com/v1/works"
  const EpisodesUrl: string := "https://api.annict.com/v1/episodes"
  const RecordsUrl: string := "https://api.annict.com/v1/records"
  const MeStatusesUrl: string := "https://api.annict.com/v1/me/statuses"
  const MeRecordsUrl: string := "https://api.annict.com/v1/me/records"
  const MeWorksUrl: string := "https://api.annict.com/v1/me/works"
  const MeProgramsUrl: string := "https://api.annict.com/v1/me/programs"

  /** The common prefix of every REST endpoint. */
  const ApiV1: string := "https://api.annict.com/v1/"

  /** A request to one endpoint: its target, and the query pairs if any were given. */
  datatype Service = Service(verb: HttpMethod, url: string, params: Option<seq<Param>>) {

    /**
     * `Service::params`: the new pairs, in the order given, come first and
     * the pairs the service already held follow them; the target is kept.
     */
    function Params(ps: seq<Param>): (r: Service)
      ensures r.verb == verb && r.url == url
      ensures r.params.Some?
      ensures params.None? ==> r.params.value == ps
      ensures params.Some? ==> r.params.value == ps + params.value
    {
      var merged := match params
        case None => ps
        case Some(prior) => ps + prior;
      Service(verb, url, Some(merged))
    }
  }

  /** The pairs a service holds, reading "no params" as the empty list. */
  function Pairs(s: Service): seq<Param> {
    s.params.GetOr([])
  }

  /** `params` called once per list of `calls`, oldest call first. */
  function ParamsAll(s: Service, calls: seq<seq<Param>>): Service
    decreases |calls|
  {
    if calls == [] then s else ParamsAll(s, calls[..|calls| - 1]).Params(calls[|calls| - 1])
  }

  /** The lists of `calls` concatenated, the newest call's list first. */
  function NewestFirst(calls: seq<seq<Param>>): seq<Param>
    decreases |calls|
  {
    if calls == [] then [] else calls[|calls| - 1] + NewestFirst(calls[..|calls| - 1])
  }

  /** Two calls: the second call's pairs, then the first call's, then the original ones. */
  lemma ParamsTwice(s: Service, a: seq<Param>, b: seq<Param>)
    ensures s.Params(a).Params(b).params == Some(b + a + Pairs(s))
    ensures |Pairs(s.Params(a).Params(b))| == |a| + |b| + |Pairs(s)|
  {
    assert s.params.None? ==> a == a + Pairs(s);
    assert b + (a + Pairs(s)) == b + a + Pairs(s);
  }

  /** No pair is dropped and none is merged with an equal one: the bag of pairs only grows by the new list. */
  lemma ParamsKeepsEveryPair(s: Service, ps: seq<Param>)
    ensures multiset(Pairs(s.Params(ps))) == multiset(ps) + multiset(Pairs(s))
  {
  }

  /**
   * Any number of calls: the pairs end up in reverse chronological order of
   * the calls, each call's own list in its given order, before the original
   * ones; the target never changes.
   */
  lemma {:induction false} ParamsAllOrder(s: Service, calls: seq<seq<Param>>)
    requires calls != []
    ensures ParamsAll(s, calls).params == Some(NewestFirst(calls) + Pairs(s))
    ensures ParamsAll(s, calls).verb == s.verb && ParamsAll(s, calls).url == s.url
    decreases |calls|
  {
    var init, last := calls[..|calls| - 1], calls[|calls| - 1];
    if init == [] {
      assert NewestFirst(calls) == last;
    } else {
      ParamsAllOrder(s, init);
      assert last + (NewestFirst(init) + Pairs(s)) == (last + NewestFirst(init)) + Pairs(s);
    }
  }

  /** `works()`: GET /v1/works with no params. */
  function Works(): (s: Service)
    ensures s.verb == GET && s.url == ApiV1 + "works" && s.params.None?
  {
    Service(GET, WorksUrl, None)
  }

  /** `episodes()`: GET /v1/episodes with no params. */
  function Episodes(): (s: Service)
    ensures s.verb == GET && s.url == ApiV1 + "episodes" && s.params.None?
  {
    Service(GET, EpisodesUrl, None)
  }

  /** `records()`: GET /v1/records with no params. */
  function Records(): (s: Service)
    ensures s.verb == GET && s.url == ApiV1 + "records" && s.params.None?
  {
    Service(GET, RecordsUrl, None)
  }

  /** `me_statuses()`: POST /v1/me/statuses with no params. */
  function MeStatuses(): (s: Service)
    ensures s.verb == POST && s.url == ApiV1 + "me/statuses" && s.params.None?
  {
    Service(POST, MeStatusesUrl, None)
  }

  /** `me_works()`: GET /v1/me/works with no params. */
  function MeWorks(): (s: Service)
    ensures s.verb == GET && s.url == ApiV1 + "me/works" && s.params.None?
  {
    Service(GET, MeWorksUrl, None)
  }

  /** `me_programs()`: GET /v1/me/programs with no params. */
  function MePrograms(): (s: Service)
    ensures s.verb == GET && s.url == ApiV1 + "me/programs" && s.params.None?
  {
    Service(GET, MeProgramsUrl, None)
  }

  /** The argument of `me_records` that picks the operation on a record. */
  datatype Method = Post | Patch | Delete

  /** The URL of one record of the user, `/v1/me/records/{id}`. */
  function MeRecordUrl(id: Decimal.Usize): string {
    MeRecordsUrl + "/" + Decimal.Format(id)
  }

  /**
   * `me_records(method, id)`: POST creates a record on the collection URL and
   * seeds the pair `episodes_id = id`; PATCH and DELETE address the record
   * `id` itself and carry no params.
   */
  function MeRecords(m: Method, id: Decimal.Usize): (s: Service)
    ensures m == Post ==> s.verb == POST && s.url == MeRecordsUrl
                          && s.params == Some([("episodes_id", Decimal.Format(id))])
    ensures m == Patch ==> s.verb == PATCH && s.url == MeRecordUrl(id) && s.params.None?
    ensures m == Delete ==> s.verb == DELETE && s.url == MeRecordUrl(id) && s.params.None?
  {
    match m
    case Post => Service(POST, MeRecordsUrl, Some([("episodes_id", Decimal.Format(id))]))
    case Patch => Service(PATCH, MeRecordUrl(id), None)
    case Delete => Service(DELETE, MeRecordUrl(id), None)
  }

  /**
   * For PATCH and DELETE the URL is the collection URL, a slash, and a
   * non-empty run of digits that reads back as `id`.
   */
  lemma MeRecordUrlNamesId(m: Method, id: Decimal.Usize)
    requires m != Post
    ensures var s := MeRecords(m, id);
            var prefix := MeRecordsUrl + "/";
            |s.url| > |prefix| && s.url[..|prefix|] == prefix
            && Decimal.AllDigits(s.url[|prefix|..]) && Decimal.Value(s.url[|prefix|..]) == id
  {
    var prefix := MeRecordsUrl + "/";
    var url := MeRecords(m, id).url;
    assert url[|prefix|..] == Decimal.Format(id);
    Decimal.ValueOfFormat(id);
  }

  /** Different ids never share a descriptor, whichever method is chosen. */
  lemma MeRecordsDistinguishesIds(m: Method, a: Decimal.Usize, b: Decimal.Usize)
    requires a != b
    ensures MeRecords(m, a) != MeRecords(m, b)
  {
    Decimal.FormatInjective(a, b);
    if m == Post {
      assert MeRecords(m, a).params.value[0].1 == Decimal.Format(a);
    } else {
      var prefix := MeRecordsUrl + "/";
      assert MeRecordUrl(a)[|prefix|..] == Decimal.Format(a);
      assert MeRecordUrl(b)[|prefix|..] == Decimal.Format(b);
    }
  }
}
