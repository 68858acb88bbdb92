# RequireUserApproval: the GitHub data-access layer in Dafny

This project models `src/github.ts` of the RequireUserApproval GitHub Action. That file is the layer
between the approval bot and the GitHub API. It has three pieces of logic:

- **Pagination** (`fetch_changed_files`, `get_reviews`). A `do … while` loop requests pages 1, 2, 3, …
  of a pull request's changed files or reviews, 100 items per page. It appends each page in order and
  goes on only while the last page held exactly 100 items. Without a pull request in the context both
  throw `'No pull request found.'`.
- **The check-run registry** (`groupMap`, `addCheckRun`, `updateCheckRun`). A module-level dictionary
  maps each approval group to the response of the check run created for it. `addCheckRun` creates an
  in-progress check run and stores (or overwrites) the response. `updateCheckRun` completes the check
  run whose id is stored.
- **Memoised getters** (`get_context`, `get_token`, `get_config_path`, `get_octokit`). Each is
  `cache || (cache = source())`, with JavaScript's `||`: a falsy value (an empty input string) is
  stored but read again on the next call.

Files:

- `js.dfy` (module `Js`): `null` as `Option`, thrown values (`Thrown(message)` for a thrown string,
  `TypeError` for reading a property of `undefined`), `Result`, and JavaScript truthiness of strings
  and objects.
- `memo.dfy` (module `Memo`): `OrAssign`, the value-level meaning of `cache || (cache = source)`, and
  `Calls`, n successive getter calls. Lemmas say how often the source is read.
- `pagination.dfy` (module `Pagination`): the page source (`PageAt`), the loop's stop page
  (`LastPage`), the concatenation of pages 1..k (`Returned`), and how a service splits a collection of
  N items into pages (`Chunks`). Lemmas give requests and results for every N.
- `github.dfy` (module `GitHub`): the request and response records. `Remote` is the hosting service:
  its pages, and a log of every request it receives. `GitHubModule` is the module-level state of
  `github.ts`: the four caches, a read counter per source, and `groupMap`. It has one method per
  function of the file except `fetch_config` (see Left out).
- `scenarios.dfy` (module `Scenarios`): sample uses, proved only from the contracts of `GitHubModule`.

The runtime's inputs are constants of an `Environment` value: `github.context`, `core.getInput('token')`
and `core.getInput('config')`. The hosting service is the `Remote` object. Every request is appended to
`Remote.log`, so contracts can state which requests were sent, in what order, and that none was sent.

Where the code differs from behaviour one might expect of such a layer, the model follows the code:

| behaviour one might expect | code (and model) |
|---|---|
| paging stops when a page has fewer than 100 items | paging continues only while a page has exactly 100 items, so an oversized page also stops it (`OversizedPageStops`) |
| creating a check run twice for a group is an error | `addCheckRun` overwrites the stored response (`Scenarios.RecreateOverwrites`) |
| completing a check run twice fails with "already resolved" | nothing is tracked: every `updateCheckRun` sends an update (`Scenarios.CheckRunLifecycle`) |
| an unknown group fails with "unknown approval group" | reading `initCheck.data` of `undefined` throws a `TypeError` before any update is sent |
| the getters read their source once | a falsy (empty) token or config path is read again on every call |
| a missing pull request is a typed error | both fetchers throw the string `'No pull request found.'` |

## Model

| member | source | states |
|---|---|---|
| `Memo.CachedTruthyIsStable` | src/github.ts:156-162 | once a truthy value is cached, any number of later calls return it, never read the source, and leave the cache as it is |
| `Memo.TruthySourceReadAtMostOnce` | src/github.ts:158-160 | with a truthy source, n >= 1 calls read it exactly once when nothing truthy was cached (else never), and all of them return the first call's value |
| `Memo.FalsySourceReadEveryCall` | src/github.ts:158-160 | a falsy source value (an empty input string) is stored but never short-circuits: each of n calls reads the source again and returns what it read, and the cache ends holding that value |
| `Pagination.FirstShortPage` | src/github.ts:48-63 | the page at which a do-while started at page `from` stops: every page before it has exactly 100 items and it does not; it is at most one past the last page of the page source (the length of `pages` plus one) |
| `Pagination.LastPage` | src/github.ts:44-63 | the pagination stops at page k >= 1, with pages 1..k-1 exactly full and page k not full; k is also the number of requests |
| `Pagination.LastPageIsFirstShort` | src/github.ts:63 | k is the stop page if and only if pages 1..k-1 hold exactly 100 items and page k does not |
| `Pagination.EmptyCollectionOneRequest` | src/github.ts:48-63 | an empty first page costs exactly one request and yields nothing |
| `Pagination.OversizedPageStops` | src/github.ts:63 | a first page of more than 100 items also stops the loop after one request; later pages are not requested |
| `Pagination.ChunkedListing` | src/github.ts:126-145 | for a collection of N items served 100 per page, the loop makes N / 100 + 1 requests and returns exactly the N items in their original order |
| `Pagination.ExactMultipleTrailingEmptyPage` | src/github.ts:48-63 | when N is a multiple of 100 the last request is for the trailing empty page, one more than N / 100 |
| `GitHub.ListingLog` | src/github.ts:49-57 | the listing requests of k iterations are for pages 1, 2, ..., k in increasing order, each with per_page 100 and the context's owner, repo and pull number |
| `GitHub.Filenames` | src/github.ts:61 | the result has one name per file item, and position i holds the `filename` of item i |
| `GitHub.FilenamesAppend` | src/github.ts:61 | mapping each page to file names and appending is the same as mapping the concatenated pages |
| `GitHub.GitHubModule.constructor` | src/github.ts:151-154 | at module load every cache is `null`, no source has been read and `groupMap` is empty; the caches agree with their sources |
| `GitHub.GitHubModule.GetContext` | src/github.ts:156 | returns `github.context`; reads it only when nothing is cached and then caches it |
| `GitHub.GitHubModule.GetToken` | src/github.ts:158 | returns the token input; a cached non-empty token is returned without reading, otherwise the input is read and stored |
| `GitHub.GitHubModule.GetConfigPath` | src/github.ts:160 | returns the config input; a cached non-empty path is returned without reading, otherwise the input is read and stored |
| `GitHub.GitHubModule.GetOctokit` | src/github.ts:162 | a cached client is returned as is and the token is not consulted; otherwise one client is built from `get_token()` and cached |
| `GitHub.GitHubModule.FetchChangedFiles` | src/github.ts:32-66 | without a pull request: throws 'No pull request found.', sends no request and leaves the client cache alone; otherwise it sends listing requests for pages 1..k, k the stop page, and returns the file names of pages 1..k in order |
| `GitHub.GitHubModule.GetReviews` | src/github.ts:113-148 | gets the client, then the context; without a pull request it throws 'No pull request found.' and sends no request; otherwise it sends requests for pages 1..k and returns the reviews of pages 1..k in order |
| `GitHub.GitHubModule.AddCheckRun` | src/github.ts:70-87 | sends one create request with status `in_progress`, name and title equal to the group name, empty summary and the context's `sha`; `groupMap[groupName]` becomes the response (overwriting any earlier one), other keys are unchanged |
| `GitHub.GitHubModule.UpdateCheckRun` | src/github.ts:89-106 | with a stored entry: sends one update with its `data.id`, status `completed`, the given conclusion and title, summary and text `${groupName} Approvals.`; with none: throws a TypeError and sends nothing; `groupMap` never changes |
| `Scenarios.HundredFiles` | src/github.ts:48-63 | 100 changed files then an empty page: 100 names after requests for pages 1 and 2 |
| `Scenarios.TwoHundredFiftyReviews` | src/github.ts:130-145 | reviews served as 100, 100 and 50: all 250 in page order after requests for pages 1, 2 and 3 |
| `Scenarios.NoPullRequest` | src/github.ts:35-37 | outside a pull request both fetchers throw 'No pull request found.' and no request is sent |
| `Scenarios.CheckRunLifecycle` | src/github.ts:76-104 | the update after a create carries the created id; a second update is sent too; an unknown group throws a TypeError with no request |
| `Scenarios.RecreateOverwrites` | src/github.ts:76 | a second create for a group replaces the stored response, so the update uses the newer id |
| `Scenarios.TokenReads` | src/github.ts:158-162 | a non-empty token is read once over repeated `get_token` and `get_octokit` calls, and the client is built once; an empty token is read again on every `get_token` call |

## Left out

- `fetch_config` (src/github.ts:14-29): a `repos.getContent` call, base64 decoding and `yaml.parse`. All of it is library behaviour with no logic of its own. `GetConfigPath` is modelled because it is one of the getters.
- `core.info` logging (src/github.ts:75, 107-109): observability only.
- `async`/`await`: calls are modelled as sequential. Nothing in the file depends on interleaving.
- Failures of remote calls: every request succeeds in the model. The source lets such errors propagate and does not handle them.
- An endless listing: the page source is a finite sequence of pages, and past its end the listing answers with an empty page. A remote that answered every page with exactly 100 items would keep the source's loop running forever; the model does not cover that.
- Request parameters that do not change the answer: the remote serves one pull request and answers by page number. The pull number and `per_page` are recorded in the request log but do not select the data.
- Octokit request and response shapes beyond the fields used: a changed file is only its `filename`; a review is an opaque record passed through; a create response is only its `data.id`, assigned by the remote from a counter. The update response is not modelled (it is only logged).
- GetOctokit (`GitHub.GitHubModule.GetOctokit`): `github.getOctokit` is treated as total. The library's refusal of an empty token (it throws when no token is given) is not modelled, so with an empty token input the model builds and caches a client where the real library would throw on every call.
- The external policy evaluator and `ConfigGroup` (`./config`): `./config` is not part of this model.
