# Client create/edit form — a Dafny model

This project models the create/edit workflow of the admin dashboard's client
form (`ClientForm`). A "client" is a business record with an id, a name, an
address and an optional assigned user. The form is opened from a modal. When
the modal carries a client id the form edits that client, otherwise it creates
one. On submit the form issues one credentialed request. It then merges the
server's answer into the shared client list, hides the modal and shows a
notification ("snack"). A loading flag stops a second submit while a request
is in flight.

The model has two modules:

- `ClientForm` (`client_form.dfy`) holds the pure parts as functions with lemmas:
  - `ApiRoute` and `ApiMethod` choose the route and the method.
  - `RouteTarget` reads a route back, so that route and method can be compared.
  - `ReplaceById` and `MergeResponse` are the client-list updaters.
  - `FindById` and `DefaultValues` give the form's edit-mode defaults.
- `FormSession` (`form_session.dfy`) holds the submit workflow as a class:
  - `Session` has the fields `isLoading`, `visible`, `clients` and `snack`, which stand for the modal, client-list and notification contexts.
  - `BeginSubmit` is the part of `onSubmit` before the await: the guard, setting the loading flag, and issuing the request.
  - `Settle` is the part after the await: the try, catch and finally blocks.
  - `Submit` runs both, so the network call is one step whose outcome is a parameter.
  - The ghost predicate `Settled` states the net effect of each outcome once.

Some points where the model follows the code closely:

- `if (clientId)` tests JavaScript truthiness. An absent id and the empty string both mean "create" (`IsEdit`).
- The edit merge matches on the RESPONSE's id, not on the modal's client id. If the server answers with an id that is not in the list, the list stays as it was (`ReplaceByIdNoMatch`).
- Only a status of exactly 200 counts as success. Any other status that does not throw changes nothing but the loading flag.
- The base URL `DB_URL` is opaque. It is the parameter or field `dbUrl`.

An edit does not always leave exactly one entry with the edited id. The
updater replaces every entry that carries the response's id. So a list with
duplicate ids keeps all of them, and a list without the id keeps none
(`ReplaceByIdNoMatch`). `EditReplacesUniqueEntry` proves the one-entry property
for a list with unique ids that contains the id.

## Model

| member | source | states |
|---|---|---|
| `ClientForm.ApiRoute` | src/components/clients/ClientForm.tsx:49-54 | every route starts with the collection endpoint `DB_URL/clients` |
| `ClientForm.RouteRoundTrip` | src/components/clients/ClientForm.tsx:49-54 | the route addresses the collection when the client id is absent or empty, and the item endpoint of exactly that id otherwise |
| `ClientForm.MethodMatchesRoute` | src/components/clients/ClientForm.tsx:49-61 | the method is PATCH exactly when the route is an item endpoint (that of the client id) and POST exactly when it is the collection endpoint |
| `ClientForm.ReplaceById` | src/components/clients/ClientForm.tsx:65-69 | the edit updater keeps the list's length |
| `ClientForm.MergeResponse` | src/components/clients/ClientForm.tsx:63-73 | edit mode keeps the length; create mode grows the list by one, keeps the old list as prefix and puts the response last |
| `ClientForm.ReplaceByIdAt` | src/components/clients/ClientForm.tsx:65-69 | each position whose id equals the response's id holds the response; every other position is unchanged |
| `ClientForm.EditMerge` | src/components/clients/ClientForm.tsx:64-69 | in edit mode, for the whole list: same length, matching positions hold the response, others are unchanged |
| `ClientForm.ReplaceByIdNoMatch` | src/components/clients/ClientForm.tsx:64-69 | if no entry has the response's id, the edit leaves the list identical |
| `ClientForm.ReplaceByIdIdempotent` | src/components/clients/ClientForm.tsx:65-69 | merging the same edit response twice gives the same list as merging it once |
| `ClientForm.EditReplacesUniqueEntry` | src/components/clients/ClientForm.tsx:64-69 | for a list with unique ids that contains the response's id, the result still has unique ids, the one entry with that id is the response, and all others are unchanged |
| `ClientForm.FindById` | src/components/clients/ClientForm.tsx:33 | a found client is in the list and has the modal's id; no result means that no client has that id (and an absent id finds nothing) |
| `ClientForm.FindByIdFirst` | src/components/clients/ClientForm.tsx:33 | the lookup returns the first client with the id |
| `ClientForm.DefaultValues` | src/components/clients/ClientForm.tsx:42-46 | with no client for the modal's id, all three defaults are "" |
| `ClientForm.DefaultsOfEditedClient` | src/components/clients/ClientForm.tsx:33-46 | editing the first client that carries a given id starts from its name, its address and its user id (or "" when it has none), for any list |
| `FormSession.Session.constructor` | src/components/clients/ClientForm.tsx:29-32 | an open, idle modal over a given client list and notification |
| `FormSession.Session.Dispatch` | src/components/clients/ClientForm.tsx:79-100 | LOADING sets the loading flag only; HIDE hides the modal only |
| `FormSession.Session.SetSnack` | src/components/clients/ClientForm.tsx:89-96 | the notification becomes the given message and status |
| `FormSession.Session.HandleClients` | src/components/clients/ClientForm.tsx:63-73 | the client list becomes the merge of the old list with the response |
| `FormSession.Session.BeginSubmit` | src/components/clients/ClientForm.tsx:75-84 | while loading: no request and nothing changes; otherwise the loading flag is set, nothing else changes, and the request uses the method and route chosen from the client id with the form values as body |
| `FormSession.Session.Settle` | src/components/clients/ClientForm.tsx:81-101 | loading ends false for every outcome; only status 200 merges, hides and sets the snack to (message, status); an axios error with a body sets the snack to (error, status); every other outcome leaves list, visibility and snack unchanged |
| `FormSession.Session.Submit` | src/components/clients/ClientForm.tsx:75-102 | a submit while loading issues no request and changes nothing; otherwise it issues the chosen request and settles as `Settle` states |
| `FormSession.DoubleSubmit` | src/components/clients/ClientForm.tsx:76-79 | the first submit issues the request chosen from the client id with the form values as body; a second submit while the first awaits its answer issues no request; the first still settles as usual |

## Left out

- `src/main.tsx` is not part of this model. It only mounts the React root and wires the providers.
- The JSX rendering, the UI components and the form-library registration (lines 104-162) are left out. They are UI only.
- The schema validation is left out, because the schema is defined elsewhere. `Submit` takes already validated `FormValues`.
- The axios I/O and `withCredentials` are left out. The request is a returned `Request` value and its result is the `Outcome` parameter. Which statuses axios raises as errors is part of that parameter.
- The async suspension is left out. So are the stale `isLoading` captured by a render and two concurrent modal instances. The model runs one sequential transition per call.
- `console.log`, the commented-out socket emit, and the user list are left out. The user list only feeds the select's options.
- The internals of the context providers are left out. HIDE is modelled only as hiding the modal, and `setSnack` only as recording the last (message, status).
- `ClientForm.ApiMethod` and `ClientForm.UserIdOrEmpty` carry no contract of their own. Their behaviour is stated by `MethodMatchesRoute` and `DefaultsOfEditedClient`.
- A response body that lacks the `{client, message, status}` shape is left out. `Responded` always carries a well-formed `SuccessBody`, so the model cannot express a 200 answer whose body makes line 87 throw; in the source that error is caught and only logged.
