# Files routes and default model catalog of a chat backend

This project models two pieces of decision logic from LibreChat's API server and proves properties of them in Dafny.

- **The files router** (`api/server/routes/files/files.js`).
  - The delete route filters the request's `files` array. A record is kept only when its `file_id` and `filepath` are non-empty. Its id must also either start with the external provider's `file-` prefix or parse as a UUID.
  - An empty filtered list answers 204. Otherwise the route makes one batch delete call and answers 200, or 400 on any throw.
  - The upload route runs four checks in order: file, `endpoint`, `file_id`, UUID. It then rewrites the form fields in place: the client's `file_id` becomes `temp_file_id`, and the server-generated id becomes `file_id`. It hands the upload on. On any throw it makes one best-effort unlink of the staged file and answers 500.
- **`loadDefaultModels`** (`api/server/services/Config/loadDefaultModels.js`) builds the eight-entry catalog that maps an endpoint to its model names.
  - Six entries come from `ModelService` fetchers; two are fixed lists.
  - The fetches run one after another. The first that throws makes the whole call reject.

Files:

- `wrappers.dfy`: `Option` and `Result`. A thrown error or rejected promise is `Err`; a missing property is `None`.
- `file_routes.dfy`: module `FileRoutes`.
  - The delete filter, `KeepForDelete` and `FilterDeletable`, with its lemmas.
  - The delete route, `DeleteRoute`.
  - The upload checks and metadata rewrite, `FirstFailedCheck` and `RewriteIds`.
  - The upload route, as class `UploadExchange`. Its fields are the form fields, the log of collaborator calls and the response.
  - The download route's header, `ContentDisposition`.
- `default_models.dfy`: module `DefaultModels`.
  - The fetch plan and the sequential run that stops at the first failure, `Plan` and `RunInOrder`.
  - The loader, `LoadDefaultModels`, and lemmas about it.

How collaborators are modelled:

- Collaborators are parameters.
  - `isUuid: string -> bool` stands for `isUUID.safeParse(..).success` and `isUUID.parse`. The `isUUID` schema comes from `librechat-data-provider`, which is not part of this model, so no UUID grammar is assumed.
  - `processDeleteRequest`, `processFileUpload` and `unlink` are functions that answer whether the call resolved (`true`) or threw (`false`).
  - The `ModelService` fetchers are the functions of a `ModelService` value, each returning a `Result`.
  - `useAzurePlugins` is an `EndpointConfig` value fixed when the module is loaded.
- Each route records its collaborator calls, in order, as `Effect`s. The loader records its fetches, in order, as `Fetch`es.

About the catalog code specifically:

- The catalog fetches run one after another. A fetch that throws rejects the whole call, and no entry is replaced by an empty list.
- Only the gptPlugins fetch receives `useAzurePlugins`. The azureOpenAI fetch passes the literal `azure: true`.
- bingAI and assistant are fixed lists. chatGPTBrowser is fetched by a zero-argument call.

## Model

| member | source | states |
|---|---|---|
| `FileRoutes.Classify` | api/server/routes/files/files.js:35-39 | An id is external exactly when it starts with `file-`. It is internal exactly when it lacks the prefix and the UUID parser accepts it. Otherwise it is invalid. |
| `FileRoutes.KeepForDelete` | api/server/routes/files/files.js:27-40 | A record is kept if and only if `file_id` and `filepath` are both present and non-empty and the id classifies as external or internal. |
| `FileRoutes.ExternalIdSkipsUuidCheck` | api/server/routes/files/files.js:35-37 | A record with a non-empty `file-` id is decided the same way whatever the UUID parser says. It is kept exactly when its `filepath` is non-empty. |
| `FileRoutes.FilterDeletable` | api/server/routes/files/files.js:27-40 | Every record in the filtered list is accepted by the predicate, so none lacks a field, and the list is no longer than the input. |
| `FileRoutes.FilterKeepsExactly` | api/server/routes/files/files.js:27-40 | A record is in the filtered list if and only if it is in the request and the predicate accepts it. |
| `FileRoutes.FilterIsSubsequence` | api/server/routes/files/files.js:27-40 | The filtered list is an order-preserving subsequence of the request's `files`: strictly increasing positions map each kept record to the equal input record. |
| `FileRoutes.FilterCounts` | api/server/routes/files/files.js:27-40 | Each record occurs in the filtered list as many times as in the request when the predicate accepts it, and zero times otherwise. With `FilterIsSubsequence`, this fixes the output to the accepted records in request order, duplicates included. |
| `FileRoutes.FilterKeepsAccepted` | api/server/routes/files/files.js:27-40 | Filtering a list whose records are all accepted returns it unchanged. |
| `FileRoutes.FilterIdempotent` | api/server/routes/files/files.js:27-40 | Filtering the filtered list again leaves it unchanged. |
| `FileRoutes.FilterRequest` | api/server/routes/files/files.js:24-40 | Reading and filtering `files` succeeds exactly when `files` is an array without nullish elements. The result is the filter applied to its records. |
| `FileRoutes.DeleteRoute` | api/server/routes/files/files.js:22-53 | The response is 204 "Nothing provided to delete" exactly when the filtered list is empty, and then nothing is called. It is 200 exactly when the list is non-empty and the batch call resolves. It is 400 exactly when the filter throws or the batch call throws. The only call is one `processDeleteRequest` with the filtered list, made exactly when that list is non-empty. Every record it receives has a non-empty `file_id` and `filepath`. |
| `FileRoutes.FirstFailedCheck` | api/server/routes/files/files.js:87-100 | There is no failure exactly when all four checks pass. A failure names a check that does not pass, and every check before it, in the order file, endpoint, file_id, UUID, does pass. |
| `FileRoutes.RewriteIds` | api/server/routes/files/files.js:101-102 | `temp_file_id` holds the client's `file_id` and `file_id` holds the server-generated id. The key set gains only `temp_file_id`, and every other field keeps its value. |
| `FileRoutes.UploadExchange.constructor` | api/server/routes/files/files.js:83-84 | A new exchange holds the request's form fields, with no calls made and no response sent. |
| `FileRoutes.UploadExchange.Upload` | api/server/routes/files/files.js:82-124 | When a check fails: the fields are unchanged, `processFileUpload` is not called, the staged file gets exactly one unlink attempt (none when there is no file), and the response is 500. When all checks pass: the fields are rewritten, and `processFileUpload` is called once with them. If it resolves, nothing is unlinked and the route sends nothing. If it throws, one unlink attempt follows and the response is 500, whatever the unlink did. |
| `FileRoutes.UploadExchange.FailWithCleanup` | api/server/routes/files/files.js:105-113 | The catch block appends exactly one unlink attempt of the staged file, or none when there is no file. It records the unlink outcome only, and sets the response to 500 "Error processing file". |
| `FileRoutes.ContentDisposition` | api/server/routes/files/files.js:74 | The header is `attachment; filename="` followed by the upstream filename, unescaped, and a closing quote. The filename reads back unchanged from between them. |
| `DefaultModels.Plan` | api/server/services/Config/loadDefaultModels.js:17-26 | Six fetches, and every `getOpenAIModels` call carries the requesting user's id. |
| `DefaultModels.RunInOrder` | api/server/services/Config/loadDefaultModels.js:16-26 | The attempted fetches are a prefix of the plan. The run succeeds exactly when every fetch succeeds, and then it holds each fetch's list in order. On failure, the last attempted fetch is the one that threw, its error is the run's error, and every earlier fetch succeeded. |
| `DefaultModels.LoadDefaultModels` | api/server/services/Config/loadDefaultModels.js:16-38 | The catalog resolves exactly when every planned fetch succeeds. It then has exactly the keys openAI, google, anthropic, gptPlugins, azureOpenAI, bingAI, chatGPTBrowser and assistant. Each fetched key comes from its own call and options: openAI `{user}`, azureOpenAI `{user, azure: true}`, gptPlugins `{user, azure: useAzurePlugins, plugins: true}`, and zero-argument google, anthropic and chatGPTBrowser calls. bingAI and assistant are the two fixed lists. Otherwise it rejects with the error of the first fetch that threw. |
| `DefaultModels.FailedFetchStopsTheRest` | api/server/services/Config/loadDefaultModels.js:17-26 | If planned fetch i throws, the loader rejects and makes no fetch after it. |
| `DefaultModels.OpenAICallsInOrder` | api/server/services/Config/loadDefaultModels.js:18-26 | The `getOpenAIModels` calls made are a prefix of openAI, azureOpenAI, gptPlugins, in that order, each with the requesting user's id. |
| `DefaultModels.OpenAICallsOfPlan` | api/server/services/Config/loadDefaultModels.js:18-26 | The planned `getOpenAIModels` calls are exactly openAI `{user}`, azureOpenAI `{user, azure: true}` and gptPlugins `{user, azure: useAzurePlugins, plugins: true}`, in that order. |
| `DefaultModels.UserIndependentEntries` | api/server/services/Config/loadDefaultModels.js:17-36 | For two users whose catalogs both resolve, the google, anthropic, chatGPTBrowser, bingAI and assistant entries are equal. |
| `DefaultModels.PluginsFlagFixedPerProcess` | api/server/services/Config/loadDefaultModels.js:2-24 | For a fixed endpoint configuration, the gptPlugins fetch gets the same `azure` value, `useAzurePlugins`, whatever the requesting user. |

## Left out

- The list route (`GET /files`) is not modelled. It only passes `getFiles` through and answers 200 or 400.
- The download route's two HTTP calls, its API key from the environment and its stream piping are not modelled, because they are network I/O. Only the `Content-Disposition` value it composes is modelled.
- `processFileUpload`, `processDeleteRequest`, `getFiles`, the multer middleware and the `ModelService` fetchers are not part of this model. They appear only as calls that resolve or throw. On success, the response that `processFileUpload` sends is not modelled.
- The Zod schema behind `isUUID` is not part of this model. `isUuid` is an arbitrary predicate.
- Logging (`logger`, `console`) and Express wiring are not modelled. Responses carry the status and the `message` field only. The `error` field of a 400 body, which holds the thrown error's text, is not modelled. The body that Express drops from a 204 response is not modelled either.
- JavaScript truthiness is modelled for string fields only: a field counts when it is present and not `""`. Non-string values in `file_id`, `filepath` or `endpoint` are not modelled. A missing `req.body` or `req.user` is not modelled.
- A request whose `files` is missing or is not an array is one case, `None`. Array-like objects with their own `filter` method are not modelled.
- The fetchers `getGoogleModels`, `getAnthropicModels` and `getChatGPTBrowserModels` are called without `await`. They are modelled as synchronous calls that return a list or throw.
- The catalog keys are the `EModelEndpoint` member names. That enum's package is not part of this model.
- Concurrency is not modelled: no code in these files runs work concurrently.
- DefaultModels.PluginsFlagFixedPerProcess: binding `useAzurePlugins` once, when the module loads, is represented only by every caller passing the same `EndpointConfig`. The lemma proves that the flag does not depend on the requesting user. It does not separate a module-load binding from a fresh read of the environment on each request, because `EndpointService`, where the flag is read, is not part of this model.
