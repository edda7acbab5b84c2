/** The submit workflow of the client form: the loading guard, the request,
    and what the answer (or the error) does to the shared modal, client-list
    and notification state. The network call is one atomic step whose
    outcome is a parameter. */
module FormSession {
  import opened ClientForm

  /** The notification channel's last `(message, status)`. */
  datatype Snack = Snack(message: string, status: string)

  /** Body of a response that did not throw: `{client, message, status}`. */
  datatype SuccessBody = SuccessBody(client: Client, message: string, status: string)

  /** Body of an error response: `{error, status}`. */
  datatype ErrorBody = ErrorBody(error: string, status: string)

  /** What the awaited request produced: a response with its status code, an
      axios error whose response carries a body or not, or any other thrown
      error. */
  datatype Outcome =
    | Responded(code: int, data: SuccessBody)
    | AxiosError(body: Option<ErrorBody>)
    | OtherError

  /** The request the form issues. */
  datatype Request = Request(verb: HttpMethod, route: string, body: FormValues)

  /** The modal context's actions the form dispatches. */
  datatype ModalAction = Loading(isLoading: bool) | Hide

  /** The shared state the form reads and writes, as one value. */
  datatype FormState = FormState(isLoading: bool, visible: bool, clients: seq<Client>, snack: Snack)

  /** The net effect of the try/catch/finally once the request has been
      issued: only a status of exactly 200 merges, hides and notifies; an
      axios error with a body notifies; nothing else touches the list, the
      modal or the notification; the loading flag always ends cleared. */
  ghost predicate Settled(clientId: Option<string>, before: FormState, outcome: Outcome, after: FormState)
  {
    !after.isLoading &&
    match outcome
    case Responded(code, data) =>
      if code == 200 then
        after.clients == MergeResponse(clientId, before.clients, data.client) &&
        !after.visible &&
        after.snack == Snack(data.message, data.status)
      else
        after.clients == before.clients && after.visible == before.visible && after.snack == before.snack
    case AxiosError(body) =>
      after.clients == before.clients && after.visible == before.visible &&
      after.snack == (if body.Some? then Snack(body.value.error, body.value.status) else before.snack)
    case OtherError =>
      after.clients == before.clients && after.visible == before.visible && after.snack == before.snack
  }

  class Session {
    /** The backend's base URL (`DB_URL`). */
    const dbUrl: string
    /** The modal's client id, as captured by the form. */
    const clientId: Option<string>

    var isLoading: bool
    var visible: bool
    var clients: seq<Client>
    var snack: Snack

    ghost function State(): FormState
      reads this
    {
      FormState(isLoading, visible, clients, snack)
    }

    /** An open modal that is not loading. */
    constructor (dbUrl: string, clientId: Option<string>, clients: seq<Client>, snack: Snack)
      ensures this.dbUrl == dbUrl && this.clientId == clientId
      ensures State() == FormState(false, true, clients, snack)
    {
      this.dbUrl := dbUrl;
      this.clientId := clientId;
      this.isLoading := false;
      this.visible := true;
      this.clients := clients;
      this.snack := snack;
    }

    /** The modal context's `dispatch`. */
    method Dispatch(action: ModalAction)
      modifies this`isLoading, this`visible
      ensures action.Loading? ==> isLoading == action.isLoading && visible == old(visible)
      ensures action.Hide? ==> !visible && isLoading == old(isLoading)
    {
      match action
      case Loading(b) => isLoading := b;
      case Hide => visible := false;
    }

    /** The notification context's `setSnack`. */
    method SetSnack(message: string, status: string)
      modifies this`snack
      ensures snack == Snack(message, status)
    {
      snack := Snack(message, status);
    }

    /** `handleClients`: passes the merge updater to the client-list setter. */
    method HandleClients(response: Client)
      modifies this`clients
      ensures clients == MergeResponse(clientId, old(clients), response)
    {
      clients := MergeResponse(clientId, clients, response);
    }

    /** The first half of `onSubmit`, up to the await: a submit while loading
        is ignored; otherwise the flag is set and the request is issued. */
    method BeginSubmit(data: FormValues) returns (request: Option<Request>)
      modifies this`isLoading, this`visible
      ensures old(isLoading) ==> request == None && State() == old(State())
      ensures !old(isLoading) ==>
                request == Some(Request(ApiMethod(clientId), ApiRoute(dbUrl, clientId), data)) &&
                State() == old(State()).(isLoading := true)
    {
      if isLoading {
        return None;
      }
      Dispatch(Loading(true));
      request := Some(Request(ApiMethod(clientId), ApiRoute(dbUrl, clientId), data));
    }

    /** The second half of `onSubmit`, after the await: the try block, the
        catch block and the `finally` that clears the loading flag. */
    method Settle(outcome: Outcome)
      modifies this`isLoading, this`visible, this`clients, this`snack
      ensures Settled(clientId, old(State()), outcome, State())
    {
      match outcome {
        case Responded(code, data) =>
          if code == 200 {
            HandleClients(data.client);
            Dispatch(Hide);
            SetSnack(data.message, data.status);
          }
        case AxiosError(body) =>
          if body.Some? {
            SetSnack(body.value.error, body.value.status);
          }
        case OtherError =>
      }
      Dispatch(Loading(false));
    }

    /** `onSubmit` with the network call taken as one step whose result is
        `outcome`. */
    method Submit(data: FormValues, outcome: Outcome) returns (request: Option<Request>)
      modifies this`isLoading, this`visible, this`clients, this`snack
      ensures old(isLoading) ==> request == None && State() == old(State())
      ensures !old(isLoading) ==>
                request == Some(Request(ApiMethod(clientId), ApiRoute(dbUrl, clientId), data)) &&
                Settled(clientId, old(State()), outcome, State())
    {
      request := BeginSubmit(data);
      if request.Some? {
        Settle(outcome);
      }
    }
  }

  /** A second submit while the first is still awaiting its answer issues no
      request; the first then settles as usual. */
  method DoubleSubmit(s: Session, data: FormValues, again: FormValues, outcome: Outcome)
      returns (first: Option<Request>, second: Option<Request>)
    requires !s.isLoading
    modifies s
    ensures first == Some(Request(ApiMethod(s.clientId), ApiRoute(s.dbUrl, s.clientId), data))
    ensures second == None
    ensures Settled(s.clientId, old(s.State()), outcome, s.State())
  {
    first := s.BeginSubmit(data);
    second := s.BeginSubmit(again);
    s.Settle(outcome);
  }

  /** Creating "Acme" posts to the collection and, on 200, appends the new
      client, hides the modal and shows the server's message. */
  method CreateScenario(dbUrl: string)
  {
    var s := new Session(dbUrl, None, [], Snack("", ""));
    var acme := Client("c1", "Acme", "1 Main St", None);
    var body := FormValues("Acme", "1 Main St", "");
    var r := s.Submit(body, Responded(200, SuccessBody(acme, "Created", "success")));
    assert r == Some(Request(Post, dbUrl + "/clients", body));
    assert s.clients == [acme] && !s.visible && s.snack == Snack("Created", "success") && !s.isLoading;
  }

  /** Editing client "c1" patches its item endpoint and, on 200, replaces it
      in place. */
  method EditScenario(dbUrl: string)
  {
    var old1 := Client("c1", "Acme", "1 Main St", None);
    var other := Client("c2", "Bolt", "3 Elm Rd", Some("u7"));
    var s := new Session(dbUrl, Some("c1"), [old1, other], Snack("", ""));
    var new1 := Client("c1", "Acme", "2 Oak Ave", None);
    var body := FormValues("Acme", "2 Oak Ave", "");
    var r := s.Submit(body, Responded(200, SuccessBody(new1, "Updated", "success")));
    assert dbUrl + "/clients/" + "c1" == dbUrl + "/clients/c1" by {
      assert "/clients/" + "c1" == "/clients/c1";
    }
    assert r == Some(Request(Patch, dbUrl + "/clients/c1", body));
    EditMerge(Some("c1"), [old1, other], new1);
    assert s.clients == [new1, other];
  }
}
