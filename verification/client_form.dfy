/** The pure parts of the client create/edit form: the record types, how the
    request method and route are chosen from the modal's client id, how the
    server's answer is merged into the shared client list, and the form's
    default values in edit mode. */
module ClientForm {

  datatype Option<T> = None | Some(value: T)

  /** A client record as the backend stores it; `id` is its `_id`.
      An absent `userId` means the client is not assigned to a user. */
  datatype Client = Client(id: string, name: string, address: string, userId: Option<string>)

  /** The validated form values that are sent as the request body.
      The assigned-user select yields "" for "unassigned". */
  datatype FormValues = FormValues(name: string, address: string, userId: string)

  /** The two axios methods the form uses. */
  datatype HttpMethod = Post | Patch

  /** What a route addresses below the backend's base URL. */
  datatype Target = Collection | Item(id: string) | Elsewhere

  /** JavaScript truthiness of the modal's `clientId`: an absent id and the
      empty string both mean "create". */
  predicate IsEdit(clientId: Option<string>)
  {
    clientId.Some? && clientId.value != ""
  }

  // ---------------------------------------------------------------------
  // Request selection

  /** `handleApiRoute`: the item endpoint in edit mode, the collection
      endpoint otherwise. Every route lies under the collection endpoint. */
  function ApiRoute(dbUrl: string, clientId: Option<string>): (route: string)
    ensures |dbUrl + "/clients"| <= |route|
    ensures route[..|dbUrl + "/clients"|] == dbUrl + "/clients"
  {
    if IsEdit(clientId) then dbUrl + "/clients/" + clientId.value
    else dbUrl + "/clients"
  }

  /** `handleApiMethod`: PATCH in edit mode, POST otherwise. */
  function ApiMethod(clientId: Option<string>): (verb: HttpMethod)
  {
    if IsEdit(clientId) then Patch else Post
  }

  /** Reads a route back: the collection endpoint, an item endpoint with its
      (non-empty) id, or something else. */
  function RouteTarget(dbUrl: string, route: string): (target: Target)
  {
    var collection := dbUrl + "/clients";
    if route == collection then Collection
    else if |route| > |collection| + 1 && route[..|collection| + 1] == collection + "/" then
      Item(route[|collection| + 1..])
    else Elsewhere
  }

  /** The route addresses the collection in create mode and exactly the
      modal's client in edit mode. */
  lemma RouteRoundTrip(dbUrl: string, clientId: Option<string>)
    ensures RouteTarget(dbUrl, ApiRoute(dbUrl, clientId))
         == if IsEdit(clientId) then Item(clientId.value) else Collection
  {
    var collection := dbUrl + "/clients";
    if IsEdit(clientId) {
      var id := clientId.value;
      var route := ApiRoute(dbUrl, clientId);
      assert route == collection + "/" + id by {
        assert dbUrl + "/clients/" == collection + "/";
      }
      assert |route| > |collection| + 1;
      assert route[..|collection| + 1] == collection + "/";
      assert route[|collection| + 1..] == id;
    }
  }

  /** Method and route always agree: PATCH goes to an item endpoint, POST to
      the collection endpoint, and neither ever goes elsewhere. */
  lemma MethodMatchesRoute(dbUrl: string, clientId: Option<string>)
    ensures ApiMethod(clientId) == Patch <==> RouteTarget(dbUrl, ApiRoute(dbUrl, clientId)).Item?
    ensures ApiMethod(clientId) == Post <==> RouteTarget(dbUrl, ApiRoute(dbUrl, clientId)) == Collection
    ensures ApiMethod(clientId) == Patch ==> RouteTarget(dbUrl, ApiRoute(dbUrl, clientId)) == Item(clientId.value)
  {
    RouteRoundTrip(dbUrl, clientId);
  }

  // ---------------------------------------------------------------------
  // Client-list merge

  /** The updater `prev.map(c => c._id === response._id ? response : c)`. */
  function ReplaceById(prev: seq<Client>, response: Client): (next: seq<Client>)
    ensures |next| == |prev|
  {
    if prev == [] then []
    else [if prev[0].id == response.id then response else prev[0]] + ReplaceById(prev[1..], response)
  }

  /** `handleClients`: in edit mode replace the entries carrying the
      response's id, in create mode append the response. */
  function MergeResponse(clientId: Option<string>, prev: seq<Client>, response: Client): (next: seq<Client>)
    ensures IsEdit(clientId) ==> |next| == |prev|
    ensures !IsEdit(clientId) ==> |next| == |prev| + 1 && next[..|prev|] == prev && next[|prev|] == response
  {
    if IsEdit(clientId) then ReplaceById(prev, response) else prev + [response]
  }

  /** Position by position: an entry with the response's id becomes the
      response, every other entry is kept. */
  lemma {:induction false} ReplaceByIdAt(prev: seq<Client>, response: Client, k: nat)
    requires k < |prev|
    ensures ReplaceById(prev, response)[k] == if prev[k].id == response.id then response else prev[k]
  {
    if k > 0 {
      ReplaceByIdAt(prev[1..], response, k - 1);
    }
  }

  /** The edit-mode merge, stated for every position of the list. */
  lemma EditMerge(clientId: Option<string>, prev: seq<Client>, response: Client)
    requires IsEdit(clientId)
    ensures |MergeResponse(clientId, prev, response)| == |prev|
    ensures forall k :: 0 <= k < |prev| && prev[k].id == response.id ==>
              MergeResponse(clientId, prev, response)[k] == response
    ensures forall k :: 0 <= k < |prev| && prev[k].id != response.id ==>
              MergeResponse(clientId, prev, response)[k] == prev[k]
  {
    forall k | 0 <= k < |prev|
      ensures MergeResponse(clientId, prev, response)[k]
           == if prev[k].id == response.id then response else prev[k]
    {
      ReplaceByIdAt(prev, response, k);
    }
  }

  /** An edit whose response id is not in the list leaves the list as it was. */
  lemma {:induction false} ReplaceByIdNoMatch(prev: seq<Client>, response: Client)
    requires forall c :: c in prev ==> c.id != response.id
    ensures ReplaceById(prev, response) == prev
  {
    if prev != [] {
      ReplaceByIdNoMatch(prev[1..], response);
      assert prev == [prev[0]] + prev[1..];
    }
  }

  /** Merging the same response twice changes nothing the second time. */
  lemma {:induction false} ReplaceByIdIdempotent(prev: seq<Client>, response: Client)
    ensures ReplaceById(ReplaceById(prev, response), response) == ReplaceById(prev, response)
  {
    if prev != [] {
      var once := ReplaceById(prev, response);
      ReplaceByIdIdempotent(prev[1..], response);
      assert once[1..] == ReplaceById(prev[1..], response);
    }
  }

  /** No two entries of the list share an id. */
  ghost predicate UniqueIds(s: seq<Client>)
  {
    forall i, j :: 0 <= i < j < |s| ==> s[i].id != s[j].id
  }

  /** An edit keeps every entry's id in place, so a list with unique ids keeps
      them, and the one entry with the response's id is the response while
      every other entry is unchanged. */
  lemma EditReplacesUniqueEntry(prev: seq<Client>, response: Client, k: nat)
    requires UniqueIds(prev)
    requires k < |prev| && prev[k].id == response.id
    ensures UniqueIds(ReplaceById(prev, response))
    ensures ReplaceById(prev, response)[k] == response
    ensures forall j :: 0 <= j < |prev| && j != k ==>
              ReplaceById(prev, response)[j] == prev[j] && prev[j].id != response.id
  {
    var next := ReplaceById(prev, response);
    forall j | 0 <= j < |prev|
      ensures next[j].id == prev[j].id
      ensures next[j] == if prev[j].id == response.id then response else prev[j]
    {
      ReplaceByIdAt(prev, response, j);
    }
  }

  // ---------------------------------------------------------------------
  // Edit-mode default values

  /** `clients.find(c => c._id === clientId)`: the first client with the
      modal's id; an absent id matches nothing. */
  function FindById(clients: seq<Client>, clientId: Option<string>): (found: Option<Client>)
    ensures found.Some? ==> found.value in clients && clientId == Some(found.value.id)
    ensures found.None? ==> forall c :: c in clients ==> clientId != Some(c.id)
  {
    if clientId.None? || clients == [] then None
    else if clients[0].id == clientId.value then Some(clients[0])
    else FindById(clients[1..], clientId)
  }

  /** `find` returns the FIRST matching client. */
  lemma {:induction false} FindByIdFirst(clients: seq<Client>, id: string, k: nat)
    requires k < |clients| && clients[k].id == id
    requires forall j :: 0 <= j < k ==> clients[j].id != id
    ensures FindById(clients, Some(id)) == Some(clients[k])
  {
    if k > 0 {
      FindByIdFirst(clients[1..], id, k - 1);
    }
  }

  /** `client?.userId || ""`. */
  function UserIdOrEmpty(userId: Option<string>): (id: string)
  {
    match userId
    case None => ""
    case Some(u) => u
  }

  /** The form's default values: each field of the client found by id, or ""
      when there is no such client. For a string field `x || ""` is `x`
      itself, because the only falsy string is "". */
  function DefaultValues(clients: seq<Client>, clientId: Option<string>): (values: FormValues)
    ensures (forall c :: c in clients ==> clientId != Some(c.id)) ==> values == FormValues("", "", "")
  {
    match FindById(clients, clientId)
    case None => FormValues("", "", "")
    case Some(c) => FormValues(c.name, c.address, UserIdOrEmpty(c.userId))
  }

  /** Editing the client at position k, the first one carrying its id,
      starts the form from that client's own fields. */
  lemma DefaultsOfEditedClient(clients: seq<Client>, k: nat)
    requires k < |clients|
    requires forall j :: 0 <= j < k ==> clients[j].id != clients[k].id
    ensures DefaultValues(clients, Some(clients[k].id))
         == FormValues(clients[k].name, clients[k].address, UserIdOrEmpty(clients[k].userId))
  {
    FindByIdFirst(clients, clients[k].id, k);
  }
}
