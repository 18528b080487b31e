# annis request builders, in Dafny

`annis` is a Rust client for the Annict REST API (an anime-tracking service).
Most of it sends HTTP requests. This project models the deterministic part
that runs before any request is sent:

- the `Service` request descriptor (HTTP method, URL, optional list of query
  pairs) and its `params` builder, which **prepends** the new pairs to the old
  ones (`annis.dfy`, module `Annis`, for `src/lib.rs`);
- the endpoint factories `works`, `episodes`, `records`, `me_statuses`,
  `me_works`, `me_programs`, and `me_records`. `me_records` picks POST, PATCH
  or DELETE from a `Method`. For PATCH and DELETE it writes the numeric id into
  the URL; for POST it seeds the id as the `episodes_id` pair;
- the per-endpoint builders `Works`, `Episodes`, `Records`, `MeWorks`,
  `MePrograms`, `MeStatuses` and `MeRecords`. Their `params` **replaces** the
  held list, and their finishers (`get`, `create`, `patch`, `detele`) produce a
  `Service` (`works.dfy`, `episodes.dfy`, `records.dfy`, `me_works.dfy`,
  `me_programs.dfy`, `me_statuses.dfy`, `me_records.dfy`);
- the OAuth side (`auth.dfy`, module `Auth`, for `src/auth.rs`):
  - the fixed `info` and `revoke` descriptors;
  - the `AuthorizeUrl` builder and its URL template;
  - the `AccessToken` builder and the ordered form it posts;
  - the quote stripping applied to the returned token.

The code has two generations of `Service`. One holds a `reqwest`
`RequestBuilder`; the other holds a method and a URL. Both are modelled as one
datatype, `Annis.Service(verb, url, params)`. Here a `RequestBuilder` is just
its method and URL. Rust builders that consume `self` and return a new value
are modelled as Dafny datatypes with member functions. `AuthorizeUrl` and
`AccessToken` change their fields through `&mut self`, so they are modelled as
classes whose setter methods modify one field each.

Two small helper modules hold the text functions the model uses:

- `decimal.dfy` (`Decimal`): Rust's decimal `Display` of a `usize`. It is
  proved to read back to the same number, so it is injective.
- `text.dfy` (`Text`): `str::trim_matches` for one character, and
  splitting and joining on a separator.

The tests at tests/works.rs:15 and tests/works.rs:41 pass a typed key,
`Works::filter_title`, but the code modelled here defines no such key type and
no `Invalid` variant. `Service::params` (src/lib.rs:53-69) and the builders'
`params` accept any key that converts to a string and filter nothing, so the
model follows the code.

## Model

| member | source | states |
|---|---|---|
| `Annis.Service.Params` | src/lib.rs:53-69 | the result always has params. With no earlier params it holds exactly the new pairs, in order. Otherwise it holds the new pairs followed by the earlier ones. Method and URL are unchanged |
| `Annis.ParamsTwice` | src/lib.rs:58-64 | `params(a)` then `params(b)` gives `b ++ a ++ old`, and its length is the sum of the three |
| `Annis.ParamsKeepsEveryPair` | src/lib.rs:58-64 | the multiset of pairs after a call is the new list's plus the old list's: nothing is dropped or deduplicated |
| `Annis.ParamsAllOrder` | src/lib.rs:53-69 | after any non-empty run of calls, the pairs are ordered newest call first, each call's list keeps its own order, and the original pairs come last. The target never changes |
| `Annis.Works` | src/lib.rs:97-102 | GET `https://api.annict.com/v1/works`, no params |
| `Annis.Episodes` | src/lib.rs:121-126 | GET `.../v1/episodes`, no params |
| `Annis.Records` | src/lib.rs:145-150 | GET `.../v1/records`, no params |
| `Annis.MeStatuses` | src/lib.rs:169-174 | POST `.../v1/me/statuses`, no params |
| `Annis.MeWorks` | src/lib.rs:248-253 | GET `.../v1/me/works`, no params |
| `Annis.MePrograms` | src/lib.rs:272-277 | GET `.../v1/me/programs`, no params |
| `Annis.MeRecords` | src/lib.rs:207-229 | Post gives POST to `.../v1/me/records` with params `[("episodes_id", decimal id)]`. Patch and Delete give PATCH and DELETE to `.../v1/me/records/` + decimal id, with no params |
| `Annis.MeRecordUrlNamesId` | src/lib.rs:213-222 | for PATCH and DELETE, the URL is the records URL, a slash, then a non-empty run of digits whose value is the id |
| `Annis.MeRecordsDistinguishesIds` | src/lib.rs:207-229 | for any method, two different ids never give the same descriptor |
| `Decimal.Format` | src/lib.rs:215 | `id` rendered by `format!("{}", id)` is a non-empty run of ASCII digits with no leading zero, except for `0` itself |
| `Decimal.ValueOfFormat` | src/lib.rs:211 | reading the digits of `id.to_string()` back gives `id` |
| `Decimal.FormatInjective` | src/lib.rs:215 | two numbers render to the same text exactly when they are equal |
| `WorksEndpoint.Works.Default` | src/works.rs:5-8 | a new builder holds no params |
| `WorksEndpoint.Works.Params` | src/works.rs:12-18 | the held params become exactly the given list, in order |
| `WorksEndpoint.Works.Get` | src/works.rs:20-25 | GET `.../v1/works`, with the held params (absent ones included) passed through |
| `WorksEndpoint.ParamsReplaces` | src/works.rs:15-17 | a second `params` call discards the first list |
| `WorksEndpoint.AgreesWithFactory` | src/works.rs:12-25 | `Works::default().params(p).get()` equals `works().params(p)` |
| `WorksEndpoint.ReplaceAndPrependAgreeIff` | src/works.rs:12-18 | after two calls, the builder equals the prepending `Service::params` (src/lib.rs:58-64) exactly when the first list is empty |
| `EpisodesEndpoint.Episodes.Default` | src/episodes.rs:4-7 | a new builder holds no params |
| `EpisodesEndpoint.Episodes.Params` | src/episodes.rs:11-17 | the held params become exactly the given list, in order |
| `EpisodesEndpoint.Episodes.Get` | src/episodes.rs:19-25 | GET `.../v1/episodes`, with the held params passed through |
| `EpisodesEndpoint.ParamsReplaces` | src/episodes.rs:14-16 | a second `params` call discards the first list |
| `EpisodesEndpoint.AgreesWithFactory` | src/episodes.rs:11-25 | `Episodes::default().params(p).get()` equals `episodes().params(p)` |
| `RecordsEndpoint.Records.Default` | src/records.rs:4-7 | a new builder holds no params |
| `RecordsEndpoint.Records.Params` | src/records.rs:11-18 | the held params become exactly the given list, in order |
| `RecordsEndpoint.Records.Get` | src/records.rs:20-25 | GET `.../v1/records`, with the held params passed through |
| `RecordsEndpoint.ParamsReplaces` | src/records.rs:15-17 | a second `params` call discards the first list |
| `RecordsEndpoint.AgreesWithFactory` | src/records.rs:11-25 | `Records::default().params(p).get()` equals `records().params(p)` |
| `MeWorksEndpoint.MeWorks.Default` | src/me/works.rs:4-7 | a new builder holds no params |
| `MeWorksEndpoint.MeWorks.Params` | src/me/works.rs:11-17 | the held params become exactly the given list, in order |
| `MeWorksEndpoint.MeWorks.Get` | src/me/works.rs:19-24 | GET `.../v1/me/works`, with the held params passed through |
| `MeWorksEndpoint.ParamsReplaces` | src/me/works.rs:14-16 | a second `params` call discards the first list |
| `MeWorksEndpoint.AgreesWithFactory` | src/me/works.rs:11-24 | `MeWorks::default().params(p).get()` equals `me_works().params(p)` |
| `MeProgramsEndpoint.MePrograms.Default` | src/me/programs.rs:4-7 | a new builder holds no params |
| `MeProgramsEndpoint.MePrograms.Params` | src/me/programs.rs:11-17 | the held params become exactly the given list, in order |
| `MeProgramsEndpoint.MePrograms.Get` | src/me/programs.rs:19-24 | GET `.../v1/me/programs`, with the held params passed through |
| `MeProgramsEndpoint.ParamsReplaces` | src/me/programs.rs:14-16 | a second `params` call discards the first list |
| `MeProgramsEndpoint.AgreesWithFactory` | src/me/programs.rs:11-24 | `MePrograms::default().params(p).get()` equals `me_programs().params(p)` |
| `MeStatusesEndpoint.MeStatuses.Default` | src/me/statuses.rs:4-7 | a new builder holds no params |
| `MeStatusesEndpoint.MeStatuses.Params` | src/me/statuses.rs:11-17 | the held params become exactly the given list, in order |
| `MeStatusesEndpoint.MeStatuses.Create` | src/me/statuses.rs:19-24 | POST `.../v1/me/statuses`, with the held params passed through |
| `MeStatusesEndpoint.ParamsReplaces` | src/me/statuses.rs:14-16 | a second `params` call discards the first list |
| `MeStatusesEndpoint.AgreesWithFactory` | src/me/statuses.rs:11-24 | `MeStatuses::default().params(p).create()` equals `me_statuses().params(p)` |
| `MeRecordsEndpoint.MeRecords.Default` | src/me/records.rs:4-7 | a new builder holds no params |
| `MeRecordsEndpoint.MeRecords.Params` | src/me/records.rs:11-18 | the held params become exactly the given list, in order |
| `MeRecordsEndpoint.MeRecords.Create` | src/me/records.rs:20-25 | POST `.../v1/me/records`, with the held params passed through |
| `MeRecordsEndpoint.MeRecords.Patch` | src/me/records.rs:27-33 | PATCH `.../v1/me/records/` + decimal id, with the held params passed through |
| `MeRecordsEndpoint.MeRecords.Detele` | src/me/records.rs:35-41 | as written: PATCH (not DELETE) to `.../v1/me/records/` + decimal id, with no params whatever was held |
| `MeRecordsEndpoint.MeRecords.Delete` | src/me/records.rs:35-41 | corrected: DELETE to `.../v1/me/records/` + decimal id, with no params |
| `MeRecordsEndpoint.ParamsReplaces` | src/me/records.rs:14-17 | a second `params` call discards the first list |
| `MeRecordsEndpoint.PatchAgreesWithFactory` | src/me/records.rs:27-33 | `MeRecords::default().params(p).patch(id)` equals `me_records(Method::Patch, id).params(p)` |
| `MeRecordsEndpoint.CreateLacksSeededPair` | src/me/records.rs:20-25 | `create` carries only the given pairs. `me_records(Method::Post, id).params(p)` has the same target and adds the seeded `episodes_id` pair after them |
| `MeRecordsEndpoint.DeteleIsNotDelete` | src/me/records.rs:35-41 | for every id and held params, `detele` uses a different method from `me_records(Method::Delete, id)` (src/lib.rs:218-221) |
| `MeRecordsEndpoint.DeleteAgreesWithFactory` | src/me/records.rs:35-41 | the corrected delete equals `me_records(Method::Delete, id)` for every id and held params |
| `Auth.OAuth.Info` | src/auth.rs:60-66 | GET `https://api.annict.com/oauth/token/info`, no params |
| `Auth.OAuth.Revoke` | src/auth.rs:85-94 | POST `https://api.annict.com/oauth/revoke` with exactly `[("token", t)]` |
| `Auth.OAuth.AuthorizeUrlBuilder` | src/auth.rs:96-98 | a fresh builder with this client id, redirect `urn:ietf:wg:oauth:2.0:oob` and scope `read` |
| `Auth.OAuth.AccessTokenBuilder` | src/auth.rs:100-102 | a fresh builder with this client id, empty secret and code, and the out-of-band redirect |
| `Auth.AuthorizeUrl.constructor` | src/auth.rs:106-112 | keeps the client id. The redirect defaults to `urn:ietf:wg:oauth:2.0:oob` and the scope to `read` |
| `Auth.AuthorizeUrl.Literal` | tests/readme_examples.rs:35-39 | a value built field by field holds exactly those fields |
| `Auth.AuthorizeUrl.SetRedirectUri` | src/auth.rs:114-120 | sets the redirect URI. Client id and scope are unchanged |
| `Auth.AuthorizeUrl.SetScope` | src/auth.rs:122-128 | sets the scope. Client id and redirect URI are unchanged |
| `Auth.AuthorizeUrl.Build` | src/auth.rs:130-132 | the URL is `https://annict.com/oauth/authorize?` followed by the fields `client_id=…`, `redirect_uri=…`, `response_type=code` and `scope=…`, joined by `&` |
| `Auth.AuthorizeQueryReadsBack` | src/auth.rs:130-132 | when no value contains `&`, cutting the query at `&` gives back exactly those four fields, in order |
| `Text.SplitJoin` | src/auth.rs:131 | splitting undoes joining when no piece contains the separator (how a receiver reads the query) |
| `Auth.DefaultAuthorizeUrl` | tests/readme_examples.rs:30-41 | `OAuth::client_id(id).authorize_url().build()` is the template with the out-of-band redirect and scope `read`, and the method also returns `build` of the hand-written value with those fields, which its contract states is equal |
| `Auth.CustomAuthorizeUrl` | tests/readme_examples.rs:8-9 | with `redirect_uri(r).scope(s)` chained before `build`, both overrides appear in the URL |
| `Auth.AccessToken.constructor` | src/auth.rs:136-143 | keeps the client id. Secret and code default to empty and the redirect to out-of-band |
| `Auth.AccessToken.Literal` | tests/readme_examples.rs:51-56 | a value built field by field holds exactly those fields |
| `Auth.AccessToken.SetClientSecret` | src/auth.rs:145-151 | sets the secret. The other three fields are unchanged |
| `Auth.AccessToken.SetCode` | src/auth.rs:153-159 | sets the code. The other three fields are unchanged |
| `Auth.AccessToken.SetRedirectUri` | src/auth.rs:161-167 | sets the redirect URI. The other three fields are unchanged |
| `Auth.AccessToken.FormParams` | src/auth.rs:169-176 | five pairs keyed `client_id`, `client_secret`, `grant_type`, `redirect_uri`, `code`, in that order. Each carries its field, and `grant_type` is `authorization_code` |
| `Auth.TokenFormFor` | tests/readme_examples.rs:44-58 | `access_token().client_secret(s).code(c)` posts the five-pair form with the out-of-band redirect, and the method also returns the hand-written value's form, which its contract states is equal |
| `Auth.AccessTokenFromField` | src/auth.rs:184-186 | the token neither starts nor ends with `"` and is no longer than the field text |
| `Auth.AccessTokenUnquotes` | src/auth.rs:184-186 | a token with no edge quote comes back unchanged from its JSON rendering between two quotes |
| `Auth.AccessTokenFromFieldIdempotent` | src/auth.rs:186 | stripping quotes twice gives the same result as stripping once |
| `Text.LeadingRun` | src/auth.rs:186 | the length of the leading run of the character: every position before it holds that character, and the next one does not |
| `Text.TrailingRun` | src/auth.rs:186 | the length of the trailing run of the character: every position in it holds that character, and the one before it does not |
| `Text.TrimMatches` | src/auth.rs:186 | the result neither starts nor ends with the character |
| `Text.TrimMatchesCore` | src/auth.rs:186 | whenever the string is a run of the character, a core with no such character at either edge, and another run, trimming gives exactly that core |
| `Text.TrimMatchesUnchanged` | src/auth.rs:186 | a string that neither starts nor ends with the character is left unchanged |
| `Text.TrimMatchesIdempotent` | src/auth.rs:186 | trimming twice gives the same result as trimming once |
| `Text.TrimMatchesUnwraps` | src/auth.rs:184-186 | wrapping a string with no edge occurrence of the character in one on each side, then trimming, gives the string back |

## Findings

| source | as written | input that shows it | evidently intended | confidence | as-written member | corrected member |
|---|---|---|---|---|---|---|
| src/me/records.rs:35-41 | `MeRecords::detele(id)` builds a PATCH request to `/v1/me/records/{id}` | `MeRecords::default().detele(1)` gives PATCH `https://api.annict.com/v1/me/records/1` | a DELETE of that record, as `me_records(Method::Delete, id)` builds at src/lib.rs:218-221 | high; not executed | `MeRecordsEndpoint.DeteleIsNotDelete` | `MeRecordsEndpoint.MeRecords.Delete` |

## Left out

- `Client::call` (src/client.rs, src/nonblocking/client.rs) is left out because it is network I/O through `reqwest` and `serde_json`. That covers the send, the bearer token, collapsing transport errors into one message, JSON decoding with the `Value::Null` fallback, and the async variant.
- The network half of `AccessToken::build` (src/auth.rs:177-185) is left out: `Url::parse_with_params`, the POST, the `unwrap` aborts and the JSON indexing. The text of the response's `access_token` field is a parameter of `AccessTokenFromField`.
- AccessTokenUnquotes: treats the JSON rendering of a token as the token between two quotes. It does not model JSON's escaping of quotes and backslashes inside the token.
- The per-endpoint parameter-key enums and the `Invalid` sentinel are not part of this model. The code shown has none of them, and its `params` methods take any string key.
- Setters return `&mut Self` in Rust so that calls can be chained. Here they return nothing, and a chain is written as calls in sequence.
- The type argument of `Service<String>` and `Service<Revoke>` (src/auth.rs:60, 85) is dropped. It is the key type of the pairs that `Client::call` serialises (src/nonblocking/client.rs:39-41), and it is `String` in both uses (`type Revoke = String`, src/auth.rs:31), so pairs are modelled as `(string, string)`.
- `Into<String>` conversions of keys and values are the identity on strings. Rust's ownership of `self` in the consuming builders becomes value semantics.
- `usize` is taken to be 64 bits wide (`Decimal.Usize`).
- `AuthorizeUrl::build` does no percent-encoding, so `Auth.AuthorizeQueryReadsBack` needs values without `&`. A value containing `&` yields more query fields than four.
- src/me/mod.rs only re-exports. The tests and examples need live credentials and serve only as evidence.
