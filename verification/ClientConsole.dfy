/** The client panel: credentials shown once, per-client operations and list loads, split at their awaits. */
module ClientConsole {
  import opened Results
  import Server = ClientKeys

  /** A client as the server sends it: an id and whatever other properties the response carries. */
  datatype Client = Client(id: nat, fields: map<string, string>)

  datatype Kind = CreatedKey | RotatedKey | WebhookSecret

  /** A secret missing from the response stays missing in the credential. */
  datatype Credential = Credential(clientId: nat, clientName: Option<string>, secret: Option<string>, kind: Kind)

  datatype Problem = SaveCredentialFirst | SecretMissing | RequestFailed

  datatype Notice = ClientCreated | StatusChanged(active: bool) | KeyRotated | PolicyAssigned(version: string) | WebhookSet | WebhookCleared

  datatype Operation = SetActive(active: bool) | Rotate | AssignPolicy(version: string) | ConfigureWebhook(url: string)

  /** Where an operation of runClientOperation stands: request out, or its body over and the finally block to come. */
  datatype Stage = Waiting | Returned | Threw(unauthorized: bool)

  /** An asynchronous call that has not ended; Leaving has only the outer finally block of rotate or configureWebhook
      left. */
  datatype Call =
    | Loading(sequence: nat)
    | Creating
    | Operating(id: nat, operation: Operation, sequence: nat, stage: Stage)
    | Leaving

  datatype Reply<+T> = Arrived(body: T) | Failed(unauthorized: bool)

  datatype Console = Console(
    items: seq<Client>,
    credential: Option<Credential>,
    isLoading: bool,
    isCreating: bool,
    isGenerating: bool,
    busy: set<nat>,
    error: Option<Problem>,
    notice: Option<Notice>,
    loadSequence: nat,
    sequences: map<nat, nat>)

  // ---------- What each stretch between awaits does ----------

  const EMPTY := Console([], None, false, false, false, {}, None, None, 0, map[])

  function Lookup<K, V>(fields: map<K, V>, key: K): Option<V> {
    if key in fields then Some(fields[key]) else None
  }

  /** The first item with the id takes over the update's properties, except an API key. */
  function Replaced(items: seq<Client>, id: nat, update: map<string, string>): seq<Client> {
    if items == [] then []
    else if items[0].id == id then [Client(id, items[0].fields + (update - {"api_key"}))] + items[1..]
    else [items[0]] + Replaced(items[1..], id, update)
  }

  /** Replaced changes the first item with the id and no other. */
  lemma {:induction false} ReplacedAtFirst(items: seq<Client>, id: nat, update: map<string, string>, index: nat)
    requires index <= |items| && (forall k :: 0 <= k < index ==> items[k].id != id)
    requires index < |items| ==> items[index].id == id
    ensures Replaced(items, id, update)
         == if index == |items| then items else items[index := Client(id, items[index].fields + (update - {"api_key"}))]
  {
    if index > 0 {
      var rest := items[1..];
      ReplacedAtFirst(rest, id, update, index - 1);
      assert items == [items[0]] + rest;
      if index < |items| {
        var replacement := Client(id, items[index].fields + (update - {"api_key"}));
        assert items[index := replacement] == [items[0]] + rest[index - 1 := replacement];
      }
    }
  }

  function HandleError(c: Console, unauthorized: bool): Console {
    if unauthorized then c else c.(error := Some(RequestFailed))
  }

  function InvalidateLoad(c: Console): Console {
    c.(loadSequence := c.loadSequence + 1, isLoading := false)
  }

  function StartLoad(c: Console): (Console, Option<Call>) {
    if c.isCreating || c.busy != {} then (c, None)
    else (c.(loadSequence := c.loadSequence + 1, isLoading := true, error := None), Some(Loading(c.loadSequence + 1)))
  }

  function FinishLoad(c: Console, sequence: nat, reply: Reply<seq<Client>>): Console {
    if sequence != c.loadSequence then c
    else
      match reply
      case Arrived(clients) => c.(items := clients, isLoading := false)
      case Failed(unauthorized) => HandleError(c, unauthorized).(isLoading := false)
  }

  /** No new credential while one is shown or being generated. */
  predicate GateClosed(c: Console) {
    c.credential.Some? || c.isGenerating
  }

  function StartCreate(c: Console): (Console, Option<Call>) {
    if c.isCreating then (c, None)
    else if GateClosed(c) then (c.(error := Some(SaveCredentialFirst)), None)
    else (InvalidateLoad(c).(isCreating := true, isGenerating := true, error := None, notice := None), Some(Creating))
  }

  function FinishCreate(c: Console, reply: Reply<Client>): Console {
    match reply
    case Arrived(client) =>
      c.(items := [Client(client.id, client.fields - {"api_key"})] + c.items, credential := Issued(Creating, client),
         notice := Some(ClientCreated), isCreating := false, isGenerating := false)
    case Failed(unauthorized) => HandleError(c, unauthorized).(isCreating := false, isGenerating := false)
  }

  predicate Gated(operation: Operation) {
    operation.Rotate? || operation.ConfigureWebhook?
  }

  /** Clearing a webhook passes the gate but generates nothing. */
  predicate Generates(operation: Operation) {
    operation.Rotate? || (operation.ConfigureWebhook? && operation.url != "")
  }

  function NextSequence(sequences: map<nat, nat>, id: nat): nat {
    (if id in sequences then sequences[id] else 0) + 1
  }

  function BeginOperation(c: Console, id: nat): Console {
    InvalidateLoad(c).(sequences := c.sequences[id := NextSequence(c.sequences, id)], busy := c.busy + {id},
                       error := None, notice := None)
  }

  function StartOperation(c: Console, id: nat, operation: Operation): (Console, Option<Call>) {
    if Gated(operation) && GateClosed(c) then (c.(error := Some(SaveCredentialFirst)), None)
    else
      var d := if Generates(operation) then c.(isGenerating := true) else c;
      if id in c.busy then (d, if Generates(operation) then Some(Leaving) else None)
      else (BeginOperation(d, id), Some(Operating(id, operation, NextSequence(c.sequences, id), Waiting)))
  }

  /** The credential a successful response hands out, if the call is one that shows it. */
  function Issued(call: Call, client: Client): Option<Credential> {
    var name := Lookup(client.fields, "name");
    match call
    case Creating => Some(Credential(client.id, name, Lookup(client.fields, "api_key"), CreatedKey))
    case Operating(_, Rotate, _, _) => Some(Credential(client.id, name, Lookup(client.fields, "api_key"), RotatedKey))
    case Operating(_, ConfigureWebhook(url), _, _) =>
      var secret := Lookup(client.fields, "webhook_secret");
      if url == "" || secret.None? || secret.value == "" then None
      else Some(Credential(client.id, name, secret, WebhookSecret))
    case _ => None
  }

  function Update(operation: Operation, client: Client): map<string, string> {
    match operation
    case AssignPolicy(version) => client.fields["policy_version" := version]
    case ConfigureWebhook(url) => (client.fields - {"webhook_secret"})["webhook_url" := url]
    case _ => client.fields
  }

  function Announcement(operation: Operation): Notice {
    match operation
    case SetActive(active) => StatusChanged(active)
    case Rotate => KeyRotated
    case AssignPolicy(version) => PolicyAssigned(version)
    case ConfigureWebhook(url) => if url == "" then WebhookCleared else WebhookSet
  }

  /** The body of the operation once its response is there. */
  function Respond(c: Console, call: Call, client: Client): Console
    requires call.Operating?
  {
    var d := c.(items := Replaced(c.items, client.id, Update(call.operation, client)));
    var issued := Issued(call, client);
    if !Generates(call.operation) then d.(notice := Some(Announcement(call.operation)))
    else if issued.None? then d.(error := Some(SecretMissing))
    else d.(credential := issued, notice := Some(Announcement(call.operation)))
  }

  /** The catch and finally blocks of runClientOperation. */
  function Settle(c: Console, call: Call): Console
    requires call.Operating?
  {
    if Lookup(c.sequences, call.id) != Some(call.sequence) then c
    else (if call.stage.Threw? then HandleError(c, call.stage.unauthorized) else c).(busy := c.busy - {call.id})
  }

  // ---------- The composable itself ----------

  class ClientPanel {
    var items: seq<Client>
    var credential: Option<Credential>
    var isLoading: bool
    var isCreating: bool
    var isGeneratingCredential: bool
    var busyClientIds: set<nat>
    var error: Option<Problem>
    var notice: Option<Notice>
    var loadSequence: nat
    var operationSequences: map<nat, nat>

    function State(): Console
      reads this
    {
      Console(items, credential, isLoading, isCreating, isGeneratingCredential, busyClientIds, error, notice,
              loadSequence, operationSequences)
    }

    constructor ()
      ensures State() == EMPTY
    {
      items, credential := [], None;
      isLoading, isCreating, isGeneratingCredential, busyClientIds := false, false, false, {};
      error, notice, loadSequence, operationSequences := None, None, 0, map[];
    }

    method Handle(unauthorized: bool)
      modifies this
      ensures State() == HandleError(old(State()), unauthorized)
    {
      if !unauthorized {
        error := Some(RequestFailed);
      }
    }

    method InvalidatePendingLoad()
      modifies this
      ensures State() == InvalidateLoad(old(State()))
    {
      loadSequence := loadSequence + 1;
      isLoading := false;
    }

    method ReplaceClient(id: nat, update: map<string, string>)
      modifies this
      ensures State() == old(State()).(items := Replaced(old(items), id, update))
    {
      var index := 0;
      while index < |items| && items[index].id != id
        invariant 0 <= index <= |items|
        invariant forall k :: 0 <= k < index ==> items[k].id != id
      {
        index := index + 1;
      }
      ReplacedAtFirst(items, id, update, index);
      if index == |items| {
        return;
      }
      items := items[index := Client(id, items[index].fields + (update - {"api_key"}))];
    }

    method Load() returns (call: Option<Call>)
      modifies this
      ensures (State(), call) == StartLoad(old(State()))
    {
      if isCreating || busyClientIds != {} {
        return None;
      }
      loadSequence := loadSequence + 1;
      isLoading := true;
      error := None;
      return Some(Loading(loadSequence));
    }

    method Loaded(sequence: nat, reply: Reply<seq<Client>>)
      modifies this
      ensures State() == FinishLoad(old(State()), sequence, reply)
    {
      match reply {
        case Arrived(clients) =>
          if sequence == loadSequence {
            items := clients;
          }
        case Failed(unauthorized) =>
          if sequence == loadSequence {
            Handle(unauthorized);
          }
      }
      if sequence == loadSequence {
        isLoading := false;
      }
    }

    method Create() returns (call: Option<Call>)
      modifies this
      ensures (State(), call) == StartCreate(old(State()))
    {
      if isCreating {
        return None;
      }
      if credential.Some? || isGeneratingCredential {
        error := Some(SaveCredentialFirst);
        return None;
      }
      InvalidatePendingLoad();
      isCreating := true;
      isGeneratingCredential := true;
      error := None;
      notice := None;
      return Some(Creating);
    }

    method Created(reply: Reply<Client>)
      modifies this
      ensures State() == FinishCreate(old(State()), reply)
    {
      match reply {
        case Arrived(client) =>
          items := [Client(client.id, client.fields - {"api_key"})] + items;
          credential := Some(Credential(client.id, Lookup(client.fields, "name"), Lookup(client.fields, "api_key"), CreatedKey));
          notice := Some(ClientCreated);
        case Failed(unauthorized) =>
          Handle(unauthorized);
      }
      isCreating := false;
      isGeneratingCredential := false;
    }

    /** runClientOperation up to the await inside the operation; None when the client is busy. */
    method RunClientOperation(id: nat) returns (sequence: Option<nat>)
      modifies this
      ensures if id in old(busyClientIds) then sequence == None && State() == old(State())
              else (sequence == Some(NextSequence(old(operationSequences), id)) && State() == BeginOperation(old(State()), id))
    {
      if id in busyClientIds {
        return None;
      }
      InvalidatePendingLoad();
      var next := (if id in operationSequences then operationSequences[id] else 0) + 1;
      operationSequences := operationSequences[id := next];
      busyClientIds := busyClientIds + {id};
      error := None;
      notice := None;
      return Some(next);
    }

    /** setActive, rotate, assignPolicy and configureWebhook up to their request. */
    method Operate(id: nat, operation: Operation) returns (call: Option<Call>)
      modifies this
      ensures (State(), call) == StartOperation(old(State()), id, operation)
    {
      if Gated(operation) && (credential.Some? || isGeneratingCredential) {
        error := Some(SaveCredentialFirst);
        return None;
      }
      if Generates(operation) {
        isGeneratingCredential := true;
      }
      var sequence := RunClientOperation(id);
      if sequence.Some? {
        return Some(Operating(id, operation, sequence.value, Waiting));
      }
      return if Generates(operation) then Some(Leaving) else None;
    }

    /** The operation's own body after its await. */
    method Responded(call: Call, client: Client)
      requires call.Operating?
      modifies this
      ensures State() == Respond(old(State()), call, client)
    {
      match call.operation {
        case SetActive(active) =>
          ReplaceClient(client.id, client.fields);
          notice := Some(StatusChanged(active));
        case Rotate =>
          ReplaceClient(client.id, client.fields);
          credential := Some(Credential(client.id, Lookup(client.fields, "name"), Lookup(client.fields, "api_key"), RotatedKey));
          notice := Some(KeyRotated);
        case AssignPolicy(version) =>
          ReplaceClient(client.id, client.fields["policy_version" := version]);
          notice := Some(PolicyAssigned(version));
        case ConfigureWebhook(url) =>
          var secret := Lookup(client.fields, "webhook_secret");
          ReplaceClient(client.id, (client.fields - {"webhook_secret"})["webhook_url" := url]);
          if url == "" {
            notice := Some(WebhookCleared);
          } else if secret.None? || secret.value == "" {
            error := Some(SecretMissing);
          } else {
            credential := Some(Credential(client.id, Lookup(client.fields, "name"), secret, WebhookSecret));
            notice := Some(WebhookSet);
          }
      }
    }

    /** What runClientOperation does after its await. */
    method Settled(call: Call)
      requires call.Operating?
      modifies this
      ensures State() == Settle(old(State()), call)
    {
      if Lookup(operationSequences, call.id) == Some(call.sequence) {
        if call.stage.Threw? {
          Handle(call.stage.unauthorized);
        }
        busyClientIds := busyClientIds - {call.id};
      }
    }

    /** The finally block of rotate, and of configureWebhook with a URL. */
    method Left()
      modifies this
      ensures State() == old(State()).(isGenerating := false)
    {
      isGeneratingCredential := false;
    }

    method ClearCredential()
      modifies this
      ensures State() == old(State()).(credential := None)
    {
      credential := None;
    }
  }

  // ---------- The panel and the network together ----------

  /** A call in flight, and how many mutations had been started when it was. */
  datatype Flight = Flight(call: Call, after: nat)

  type Flights = map<nat, Flight>

  /** A response that brought a secret, as it arrived. */
  datatype Receipt = Receipt(call: Call, body: Client)

  /** received are the responses that brought a secret, dismissed the credentials the user has cleared. */
  datatype World = World(
    console: Console, flights: Flights, mutations: nat, received: seq<Receipt>, dismissed: seq<Credential>)

  const START := World(EMPTY, map[], 0, [], [])

  datatype Step =
    | Load(slot: nat)
    | Create(slot: nat)
    | Operate(slot: nat, id: nat, operation: Operation)
    | Clear
    | ListArrives(slot: nat, list: Reply<seq<Client>>)
    | CreatedArrives(slot: nat, created: Reply<Client>)
    | OperationArrives(slot: nat, updated: Reply<Client>)
    | SettleOperation(slot: nat)
    | Leave(slot: nat)

  predicate Mutates(call: Call) {
    call.Creating? || call.Operating?
  }

  /** A creation or a rotation always brings a key; a new webhook brings a secret if the response carries one. */
  predicate BringsSecret(call: Call, body: Client) {
    || call.Creating?
    || (call.Operating? && call.operation.Rotate?)
    || (call.Operating? && call.operation.ConfigureWebhook? && call.operation.url != ""
        && "webhook_secret" in body.fields && body.fields["webhook_secret"] != "")
  }

  function Receipts(call: Call, body: Client): seq<Receipt> {
    if BringsSecret(call, body) then [Receipt(call, body)] else []
  }

  /** The value is the property of that name, or missing as the property is. */
  predicate IsProperty(value: Option<string>, fields: map<string, string>, name: string) {
    (name in fields ==> value == Some(fields[name])) && (name !in fields ==> value == None)
  }

  /** The credential shows the secret of that response under its client's id and name: the API key of a creation or a
      rotation, the signing secret of a webhook. */
  predicate Carries(c: Credential, r: Receipt) {
    && c.clientId == r.body.id && IsProperty(c.clientName, r.body.fields, "name")
    && match r.call
       case Creating => c.kind == CreatedKey && IsProperty(c.secret, r.body.fields, "api_key")
       case Operating(_, Rotate, _, _) => c.kind == RotatedKey && IsProperty(c.secret, r.body.fields, "api_key")
       case Operating(_, ConfigureWebhook(_), _, _) =>
         c.kind == WebhookSecret && c.secret.Some? && c.secret.value != ""
         && IsProperty(c.secret, r.body.fields, "webhook_secret")
       case _ => false
  }

  /** Response by response, the credentials carry their secrets. */
  ghost predicate AllCarried(received: seq<Receipt>, credentials: seq<Credential>) {
    |received| == |credentials| && forall i :: 0 <= i < |received| ==> Carries(credentials[i], received[i])
  }

  function Shown(credential: Option<Credential>): seq<Credential> {
    if credential.Some? then [credential.value] else []
  }

  predicate Enabled(w: World, step: Step) {
    match step
    case Load(slot) => slot !in w.flights
    case Create(slot) => slot !in w.flights
    case Operate(slot, _, _) => slot !in w.flights
    case Clear => true
    case ListArrives(slot, _) => slot in w.flights && w.flights[slot].call.Loading?
    case CreatedArrives(slot, _) => slot in w.flights && w.flights[slot].call.Creating?
    case OperationArrives(slot, _) =>
      slot in w.flights && w.flights[slot].call.Operating? && w.flights[slot].call.stage.Waiting?
    case SettleOperation(slot) =>
      slot in w.flights && w.flights[slot].call.Operating? && !w.flights[slot].call.stage.Waiting?
    case Leave(slot) => slot in w.flights && w.flights[slot].call.Leaving?
  }

  function TakeOff(w: World, slot: nat, started: (Console, Option<Call>)): World {
    match started.1
    case None => w.(console := started.0)
    case Some(call) =>
      w.(console := started.0, flights := w.flights[slot := Flight(call, w.mutations)],
         mutations := w.mutations + if Mutates(call) then 1 else 0)
  }

  function Apply(w: World, step: Step): World
    requires Enabled(w, step)
  {
    match step
    case Load(slot) => TakeOff(w, slot, StartLoad(w.console))
    case Create(slot) => TakeOff(w, slot, StartCreate(w.console))
    case Operate(slot, id, operation) => TakeOff(w, slot, StartOperation(w.console, id, operation))
    case Clear => w.(console := w.console.(credential := None), dismissed := w.dismissed + Shown(w.console.credential))
    case ListArrives(slot, list) =>
      w.(console := FinishLoad(w.console, w.flights[slot].call.sequence, list), flights := w.flights - {slot})
    case CreatedArrives(slot, created) =>
      w.(console := FinishCreate(w.console, created), flights := w.flights - {slot},
         received := w.received + if created.Arrived? then Receipts(Creating, created.body) else [])
    case OperationArrives(slot, updated) =>
      var call := w.flights[slot].call;
      match updated {
        case Arrived(client) =>
          w.(console := Respond(w.console, call, client),
             flights := w.flights[slot := w.flights[slot].(call := call.(stage := Returned))],
             received := w.received + Receipts(call, client))
        case Failed(unauthorized) =>
          w.(flights := w.flights[slot := w.flights[slot].(call := call.(stage := Threw(unauthorized)))])
      }
    case SettleOperation(slot) =>
      var call := w.flights[slot].call;
      w.(console := Settle(w.console, call),
         flights := if Generates(call.operation) then w.flights[slot := w.flights[slot].(call := Leaving)]
                    else w.flights - {slot})
    case Leave(slot) => w.(console := w.console.(isGenerating := false), flights := w.flights - {slot})
  }

  function Run(steps: seq<Step>): Option<World> {
    if steps == [] then Some(START)
    else
      var before := Run(steps[..|steps| - 1]);
      var step := steps[|steps| - 1];
      if before.Some? && Enabled(before.value, step) then Some(Apply(before.value, step)) else None
  }

  // ---------- Flags and the calls behind them ----------

  datatype Role = Generator | Creator | Operator(id: nat) | Loader(sequence: nat)

  predicate Plays(call: Call, role: Role) {
    match role
    case Generator => call.Creating? || call.Leaving? || (call.Operating? && Generates(call.operation))
    case Creator => call.Creating?
    case Operator(id) => call.Operating? && call.id == id
    case Loader(sequence) => call.Loading? && call.sequence == sequence
  }

  predicate Player(flights: Flights, role: Role, slot: nat) {
    slot in flights && Plays(flights[slot].call, role)
  }

  /** At most one call in flight plays the role, and the flag says whether one does. */
  ghost predicate Solo(flights: Flights, role: Role, flag: bool) {
    && (forall a, b :: Player(flights, role, a) && Player(flights, role, b) ==> a == b)
    && (flag <==> exists slot :: Player(flights, role, slot))
  }

  lemma {:induction false} Joins(flights: Flights, role: Role, flag: bool, slot: nat, flight: Flight, after: Flights)
    requires Solo(flights, role, flag) && slot !in flights && after == flights[slot := flight]
    requires Plays(flight.call, role) ==> !flag
    ensures Solo(after, role, flag || Plays(flight.call, role))
  {
    forall other
      ensures Player(after, role, other) <==> Player(flights, role, other) || (other == slot && Plays(flight.call, role))
    {
    }
    assert Plays(flight.call, role) ==> Player(after, role, slot);
    if flag {
      var other :| Player(flights, role, other);
      assert Player(after, role, other);
    }
  }

  lemma {:induction false} Leaves(flights: Flights, role: Role, flag: bool, slot: nat, after: Flights)
    requires Solo(flights, role, flag) && slot in flights && after == flights - {slot}
    ensures Solo(after, role, flag && !Plays(flights[slot].call, role))
  {
    forall other
      ensures Player(after, role, other) <==> Player(flights, role, other) && other != slot
    {
    }
    if flag {
      var other :| Player(flights, role, other);
      assert Player(flights, role, slot) ==> other == slot;
      assert other != slot ==> Player(after, role, other);
    }
  }

  /** A call moving on to its next stage may drop the role but not take it up. */
  lemma {:induction false} MovesOn(flights: Flights, role: Role, flag: bool, slot: nat, flight: Flight, after: Flights)
    requires Solo(flights, role, flag) && slot in flights && after == flights[slot := flight]
    requires Plays(flight.call, role) ==> Plays(flights[slot].call, role)
    ensures Solo(after, role, flag && (Plays(flight.call, role) || !Plays(flights[slot].call, role)))
  {
    forall other
      ensures Player(after, role, other) <==> Player(flights, role, other) && (other != slot || Plays(flight.call, role))
    {
    }
    if flag {
      var other :| Player(flights, role, other);
      assert Player(flights, role, slot) ==> other == slot;
      assert other != slot || Plays(flight.call, role) ==> Player(after, role, other);
    }
  }

  // ---------- The invariant ----------

  /** Its response will be shown as a credential. */
  predicate Awaits(call: Call) {
    call.Creating? || (call.Operating? && Generates(call.operation) && call.stage.Waiting?)
  }

  /** No credential is shown while a call is waiting for one. */
  ghost predicate RoomKept(flights: Flights, credential: Option<Credential>) {
    forall slot :: slot in flights && Awaits(flights[slot].call) ==> credential == None
  }

  /** No operation is ever overtaken by another one on its client. */
  ghost predicate NoneOvertaken(flights: Flights, sequences: map<nat, nat>) {
    forall slot :: slot in flights && flights[slot].call.Operating? ==>
      Lookup(sequences, flights[slot].call.id) == Some(flights[slot].call.sequence)
  }

  predicate LoadSound(flight: Flight, sequence: nat, mutations: nat, quiet: bool) {
    flight.call.Loading? ==>
      && flight.call.sequence <= sequence
      && (flight.call.sequence == sequence ==> flight.after == mutations && quiet)
  }

  /** A current list request was sent after the last mutation was started, and none is running. */
  ghost predicate LoadsSound(flights: Flights, sequence: nat, mutations: nat, quiet: bool) {
    forall slot :: slot in flights ==> LoadSound(flights[slot], sequence, mutations, quiet)
  }

  ghost predicate FlagsHonest(c: Console, flights: Flights) {
    && Solo(flights, Generator, c.isGenerating)
    && Solo(flights, Creator, c.isCreating)
    && (forall id :: Solo(flights, Operator(id), id in c.busy))
    && Solo(flights, Loader(c.loadSequence), c.isLoading)
  }

  predicate Quiet(c: Console) {
    !c.isCreating && c.busy == {}
  }

  ghost predicate Inv(w: World) {
    && FlagsHonest(w.console, w.flights)
    && RoomKept(w.flights, w.console.credential)
    && NoneOvertaken(w.flights, w.console.sequences)
    && LoadsSound(w.flights, w.console.loadSequence, w.mutations, Quiet(w.console))
    && AllCarried(w.received, w.dismissed + Shown(w.console.credential))
  }

  // ---------- Each step keeps it ----------

  lemma {:induction false} LoadStep(w: World, step: Step)
    requires Inv(w) && Enabled(w, step) && step.Load?
    ensures Inv(Apply(w, step))
  {
    var t := Apply(w, step);
    if step.slot in t.flights {
      var flight := t.flights[step.slot];
      Joins(w.flights, Loader(w.console.loadSequence + 1), false, step.slot, flight, t.flights);
      JoinsOthers(w, step.slot, flight, t.flights);
    }
  }

  /** The waiting call is the only generating one, so once it is answered nothing waits for a credential. */
  lemma {:induction false} AnsweredLeavesNoneAwaiting(flights: Flights, flag: bool, slot: nat, after: Flights)
    requires Solo(flights, Generator, flag) && slot in flights && Awaits(flights[slot].call)
    requires after == flights - {slot} || (slot in after && !Awaits(after[slot].call) && after == flights[slot := after[slot]])
    ensures forall other :: other in after ==> !Awaits(after[other].call)
  {
    assert Player(flights, Generator, slot);
    forall other | other in after && Awaits(after[other].call)
      ensures false
    {
      assert Player(flights, Generator, other);
    }
  }

  /** A client that is not busy has no operation in flight. */
  lemma {:induction false} NoneOvertakenWith(
    flights: Flights, sequences: map<nat, nat>, id: nat, slot: nat, flight: Flight, after: Flights, afterwards: map<nat, nat>)
    requires NoneOvertaken(flights, sequences) && Solo(flights, Operator(id), false) && slot !in flights
    requires flight.call.Operating? && flight.call.id == id && after == flights[slot := flight]
    requires afterwards == sequences[id := flight.call.sequence]
    ensures NoneOvertaken(after, afterwards)
  {
    forall other | other in after && after[other].call.Operating?
      ensures Lookup(afterwards, after[other].call.id) == Some(after[other].call.sequence)
    {
      if other != slot {
        assert Player(flights, Operator(after[other].call.id), other);
      }
    }
  }

  /** A new call leaves the flags of the roles it does not play as they were. */
  lemma {:induction false} JoinsOthers(w: World, slot: nat, flight: Flight, after: Flights)
    requires Inv(w) && slot !in w.flights && after == w.flights[slot := flight]
    requires Plays(flight.call, Generator) ==> !w.console.isGenerating
    requires Plays(flight.call, Creator) ==> !w.console.isCreating
    requires flight.call.Operating? ==> flight.call.id !in w.console.busy
    ensures Solo(after, Generator, w.console.isGenerating || Plays(flight.call, Generator))
    ensures Solo(after, Creator, w.console.isCreating || Plays(flight.call, Creator))
    ensures forall id :: Solo(after, Operator(id), id in w.console.busy || Plays(flight.call, Operator(id)))
  {
    Joins(w.flights, Generator, w.console.isGenerating, slot, flight, after);
    Joins(w.flights, Creator, w.console.isCreating, slot, flight, after);
    forall id
      ensures Solo(after, Operator(id), id in w.console.busy || Plays(flight.call, Operator(id)))
    {
      Joins(w.flights, Operator(id), id in w.console.busy, slot, flight, after);
    }
  }

  lemma {:induction false} CreateStep(w: World, step: Step)
    requires Inv(w) && Enabled(w, step) && step.Create?
    ensures Inv(Apply(w, step))
  {
    var t := Apply(w, step);
    if step.slot in t.flights {
      MutationJoins(w, step.slot, t.flights[step.slot], t.flights, w.console.loadSequence + 1);
    }
  }

  /** A new mutation and the flags, once the list sequence has moved on. */
  lemma {:induction false} MutationJoins(w: World, slot: nat, flight: Flight, after: Flights, next: nat)
    requires Inv(w) && slot !in w.flights && after == w.flights[slot := flight]
    requires Mutates(flight.call) && next == w.console.loadSequence + 1
    requires Plays(flight.call, Generator) ==> !w.console.isGenerating
    requires Plays(flight.call, Creator) ==> !w.console.isCreating
    requires flight.call.Operating? ==> flight.call.id !in w.console.busy
    ensures Solo(after, Generator, w.console.isGenerating || Plays(flight.call, Generator))
    ensures Solo(after, Creator, w.console.isCreating || Plays(flight.call, Creator))
    ensures forall id :: Solo(after, Operator(id), id in w.console.busy || Plays(flight.call, Operator(id)))
    ensures Solo(after, Loader(next), false)
    ensures LoadsSound(after, next, w.mutations + 1, false)
  {
    JoinsOthers(w, slot, flight, after);
    Joins(w.flights, Loader(next), false, slot, flight, after);
    forall other | other in after
      ensures LoadSound(after[other], next, w.mutations + 1, false)
    {
      assert other != slot ==> LoadSound(w.flights[other], next - 1, w.mutations, Quiet(w.console));
    }
  }

  lemma {:induction false} AcceptedOperateStep(w: World, step: Step)
    requires Inv(w) && Enabled(w, step) && step.Operate?
    requires var t := Apply(w, step); step.slot in t.flights && t.flights[step.slot].call.Operating?
    ensures Inv(Apply(w, step))
  {
    var t := Apply(w, step);
    var flight := t.flights[step.slot];
    MutationJoins(w, step.slot, flight, t.flights, w.console.loadSequence + 1);
    NoneOvertakenWith(w.flights, w.console.sequences, step.id, step.slot, flight, t.flights, t.console.sequences);
  }

  /** An operation on a busy client ends at once, and a refused one never starts. */
  lemma {:induction false} SkippedOperateStep(w: World, step: Step)
    requires Inv(w) && Enabled(w, step) && step.Operate?
    requires var t := Apply(w, step); step.slot in t.flights ==> t.flights[step.slot].call.Leaving?
    ensures Inv(Apply(w, step))
  {
    var t := Apply(w, step);
    if step.slot in t.flights {
      JoinsOthers(w, step.slot, t.flights[step.slot], t.flights);
      Joins(w.flights, Loader(w.console.loadSequence), w.console.isLoading, step.slot, t.flights[step.slot], t.flights);
    }
  }

  lemma {:induction false} LeavesAll(w: World, slot: nat, after: Flights)
    requires Inv(w) && slot in w.flights && after == w.flights - {slot}
    ensures Solo(after, Generator, w.console.isGenerating && !Plays(w.flights[slot].call, Generator))
    ensures Solo(after, Creator, w.console.isCreating && !Plays(w.flights[slot].call, Creator))
    ensures forall id :: Solo(after, Operator(id), id in w.console.busy && !Plays(w.flights[slot].call, Operator(id)))
    ensures Solo(after, Loader(w.console.loadSequence),
                 w.console.isLoading && !Plays(w.flights[slot].call, Loader(w.console.loadSequence)))
  {
    Leaves(w.flights, Generator, w.console.isGenerating, slot, after);
    Leaves(w.flights, Creator, w.console.isCreating, slot, after);
    Leaves(w.flights, Loader(w.console.loadSequence), w.console.isLoading, slot, after);
    forall id
      ensures Solo(after, Operator(id), id in w.console.busy && !Plays(w.flights[slot].call, Operator(id)))
    {
      Leaves(w.flights, Operator(id), id in w.console.busy, slot, after);
    }
  }

  lemma {:induction false} ListArrivesKeepsFlags(w: World, step: Step)
    requires Inv(w) && Enabled(w, step) && step.ListArrives?
    ensures FlagsHonest(Apply(w, step).console, Apply(w, step).flights)
  {
    LeavesAll(w, step.slot, Apply(w, step).flights);
  }

  lemma {:induction false} ListArrivesStep(w: World, step: Step)
    requires Inv(w) && Enabled(w, step) && step.ListArrives?
    ensures Inv(Apply(w, step))
  {
    ListArrivesKeepsFlags(w, step);
  }

  lemma {:induction false} CreatedArrivesKeepsFlags(w: World, step: Step)
    requires Inv(w) && Enabled(w, step) && step.CreatedArrives?
    ensures FlagsHonest(Apply(w, step).console, Apply(w, step).flights)
    ensures w.console.isCreating && w.console.credential == None
  {
    LeavesAll(w, step.slot, Apply(w, step).flights);
    assert Player(w.flights, Creator, step.slot);
  }

  lemma {:induction false} CreatedArrivesStep(w: World, step: Step)
    requires Inv(w) && Enabled(w, step) && step.CreatedArrives?
    ensures Inv(Apply(w, step))
  {
    var t := Apply(w, step);
    CreatedArrivesKeepsFlags(w, step);
    AnsweredLeavesNoneAwaiting(w.flights, w.console.isGenerating, step.slot, t.flights);
    if step.created.Arrived? {
      SecretIsCarried(w.received, w.dismissed, Creating, step.created.body);
    } else {
      assert w.received + [] == w.received;
    }
  }

  lemma {:induction false} LeaveStep(w: World, step: Step)
    requires Inv(w) && Enabled(w, step) && step.Leave?
    ensures Inv(Apply(w, step))
  {
    LeavesAll(w, step.slot, Apply(w, step).flights);
    assert Player(w.flights, Generator, step.slot);
  }

  lemma {:induction false} MovesOnAll(w: World, slot: nat, flight: Flight, after: Flights)
    requires Inv(w) && slot in w.flights && after == w.flights[slot := flight]
    requires w.flights[slot].call.Operating?
    requires flight.call == Leaving || (flight.call.Operating? && flight.call.id == w.flights[slot].call.id)
    requires Plays(flight.call, Generator) == Plays(w.flights[slot].call, Generator)
    ensures Solo(after, Generator, w.console.isGenerating)
    ensures Solo(after, Creator, w.console.isCreating)
    ensures forall id :: Solo(after, Operator(id), id in w.console.busy && (flight.call.Operating? || id != w.flights[slot].call.id))
    ensures Solo(after, Loader(w.console.loadSequence), w.console.isLoading)
  {
    MovesOn(w.flights, Generator, w.console.isGenerating, slot, flight, after);
    MovesOn(w.flights, Creator, w.console.isCreating, slot, flight, after);
    MovesOn(w.flights, Loader(w.console.loadSequence), w.console.isLoading, slot, flight, after);
    forall id
      ensures Solo(after, Operator(id), id in w.console.busy && (flight.call.Operating? || id != w.flights[slot].call.id))
    {
      MovesOn(w.flights, Operator(id), id in w.console.busy, slot, flight, after);
    }
  }

  lemma {:induction false} OperationArrivesKeepsFlags(w: World, step: Step)
    requires Inv(w) && Enabled(w, step) && step.OperationArrives?
    ensures FlagsHonest(Apply(w, step).console, Apply(w, step).flights)
  {
    var t := Apply(w, step);
    MovesOnAll(w, step.slot, t.flights[step.slot], t.flights);
  }

  lemma {:induction false} AnsweredOperationKeeps(w: World, slot: nat, flight: Flight, after: Flights, credential: Option<Credential>)
    requires Inv(w) && slot in w.flights && after == w.flights[slot := flight]
    requires w.flights[slot].call.Operating? && flight.call.Operating? && !Awaits(flight.call)
    requires flight.call.id == w.flights[slot].call.id && flight.call.sequence == w.flights[slot].call.sequence
    requires credential == w.console.credential || Awaits(w.flights[slot].call)
    ensures RoomKept(after, credential)
    ensures NoneOvertaken(after, w.console.sequences)
    ensures LoadsSound(after, w.console.loadSequence, w.mutations, Quiet(w.console))
  {
    if Awaits(w.flights[slot].call) {
      AnsweredLeavesNoneAwaiting(w.flights, w.console.isGenerating, slot, after);
    }
    forall other | other in after
      ensures LoadSound(after[other], w.console.loadSequence, w.mutations, Quiet(w.console))
    {
      assert LoadSound(w.flights[other], w.console.loadSequence, w.mutations, Quiet(w.console));
    }
  }

  /** With nothing on display, a response that brings a secret puts its credential there. */
  lemma {:induction false} SecretIsCarried(received: seq<Receipt>, dismissed: seq<Credential>, call: Call, body: Client)
    requires AllCarried(received, dismissed + Shown(None)) && (call.Creating? || call.Operating?)
    ensures AllCarried(received + Receipts(call, body), dismissed + Shown(Issued(call, body)))
  {
    assert dismissed + Shown(None) == dismissed;
    if !BringsSecret(call, body) {
      assert Issued(call, body) == None;
      assert received + Receipts(call, body) == received;
    }
  }

  lemma {:induction false} ResponseIsCarried(w: World, step: Step)
    requires Inv(w) && Enabled(w, step) && step.OperationArrives? && step.updated.Arrived?
    ensures AllCarried(Apply(w, step).received, Apply(w, step).dismissed + Shown(Apply(w, step).console.credential))
  {
    var call, body := w.flights[step.slot].call, step.updated.body;
    if Generates(call.operation) {
      assert Awaits(call);
      SecretIsCarried(w.received, w.dismissed, call, body);
    } else {
      assert w.received + Receipts(call, body) == w.received;
    }
  }

  lemma {:induction false} OperationFailsStep(w: World, step: Step)
    requires Inv(w) && Enabled(w, step) && step.OperationArrives? && step.updated.Failed?
    ensures Inv(Apply(w, step))
  {
    var t := Apply(w, step);
    OperationArrivesKeepsFlags(w, step);
    AnsweredOperationKeeps(w, step.slot, t.flights[step.slot], t.flights, t.console.credential);
  }

  lemma {:induction false} OperationArrivesStep(w: World, step: Step)
    requires Inv(w) && Enabled(w, step) && step.OperationArrives? && step.updated.Arrived?
    ensures Inv(Apply(w, step))
  {
    var t := Apply(w, step);
    OperationArrivesKeepsFlags(w, step);
    AnsweredOperationKeeps(w, step.slot, t.flights[step.slot], t.flights, t.console.credential);
    ResponseIsCarried(w, step);
  }

  lemma {:induction false} SettlingFrees(w: World, step: Step)
    requires Inv(w) && Enabled(w, step) && step.SettleOperation?
    ensures var id := w.flights[step.slot].call.id;
            id in w.console.busy && Apply(w, step).console.busy == w.console.busy - {id}
  {
    var call := w.flights[step.slot].call;
    assert Lookup(w.console.sequences, call.id) == Some(call.sequence);
    assert Player(w.flights, Operator(call.id), step.slot);
    assert Solo(w.flights, Operator(call.id), call.id in w.console.busy);
  }

  lemma {:induction false} SettleKeepsFlags(w: World, step: Step)
    requires Inv(w) && Enabled(w, step) && step.SettleOperation?
    ensures FlagsHonest(Apply(w, step).console, Apply(w, step).flights)
  {
    var t := Apply(w, step);
    SettlingFrees(w, step);
    if step.slot in t.flights {
      MovesOnAll(w, step.slot, t.flights[step.slot], t.flights);
    } else {
      LeavesAll(w, step.slot, t.flights);
    }
  }

  lemma {:induction false} SettleStep(w: World, step: Step)
    requires Inv(w) && Enabled(w, step) && step.SettleOperation?
    ensures Inv(Apply(w, step))
  {
    var t := Apply(w, step);
    SettleKeepsFlags(w, step);
    SettlingFrees(w, step);
  }

  lemma {:induction false} InvStep(w: World, step: Step)
    requires Inv(w) && Enabled(w, step)
    ensures Inv(Apply(w, step))
  {
    match step
    case Load(_) => LoadStep(w, step);
    case Create(_) => CreateStep(w, step);
    case Operate(slot, _, _) =>
      var started := StartOperation(w.console, step.id, step.operation).1;
      if started.Some? && started.value.Operating? {
        AcceptedOperateStep(w, step);
      } else {
        SkippedOperateStep(w, step);
      }
    case Clear =>
    case ListArrives(_, _) => ListArrivesStep(w, step);
    case CreatedArrives(_, _) => CreatedArrivesStep(w, step);
    case OperationArrives(_, updated) =>
      if updated.Arrived? {
        OperationArrivesStep(w, step);
      } else {
        OperationFailsStep(w, step);
      }
    case SettleOperation(_) => SettleStep(w, step);
    case Leave(_) => LeaveStep(w, step);
  }

  lemma {:induction false} RunKeepsInv(steps: seq<Step>)
    requires Run(steps).Some?
    ensures Inv(Run(steps).value)
  {
    if steps != [] {
      RunKeepsInv(steps[..|steps| - 1]);
      InvStep(Run(steps[..|steps| - 1]).value, steps[|steps| - 1]);
    }
  }

  // ---------- What follows for every run ----------

  /** Every response that brought a secret has become one credential, carrying that response's secret under its client's
      id and name, and the credential has been dismissed by the user or is on display: none is lost, overwritten or made
      up. A shown credential changes only when the user clears it. */
  lemma {:induction false} NoCredentialIsLost(steps: seq<Step>, step: Step)
    requires Run(steps).Some? && Enabled(Run(steps).value, step)
    ensures var w := Run(steps).value;
            && AllCarried(w.received, w.dismissed + Shown(w.console.credential))
            && (w.console.credential.Some? && step != Clear ==> Apply(w, step).console.credential == w.console.credential)
  {
    RunKeepsInv(steps);
    var w := Run(steps).value;
    if step.OperationArrives? || step.CreatedArrives? {
      assert Awaits(w.flights[step.slot].call) ==> w.console.credential == None;
    }
  }

  /** At most one call that generates a credential is in flight, and isGeneratingCredential says whether one is. */
  lemma OneCredentialAtATime(steps: seq<Step>)
    requires Run(steps).Some?
    ensures Solo(Run(steps).value.flights, Generator, Run(steps).value.console.isGenerating)
    ensures RoomKept(Run(steps).value.flights, Run(steps).value.console.credential)
  {
    RunKeepsInv(steps);
  }

  /** A list is shown only if no mutation was started since it was requested and none is running. */
  lemma OnlyFreshListsAreShown(steps: seq<Step>, step: Step)
    requires Run(steps).Some? && Enabled(Run(steps).value, step) && step.ListArrives? && step.list.Arrived?
    ensures var w := Run(steps).value;
            var flight := w.flights[step.slot];
            && (Apply(w, step).console.items != w.console.items ==>
                  flight.after == w.mutations && !w.console.isCreating && w.console.busy == {})
            && (flight.after != w.mutations ==> Apply(w, step).console == w.console)
  {
    RunKeepsInv(steps);
    var w := Run(steps).value;
    assert LoadSound(w.flights[step.slot], w.console.loadSequence, w.mutations, Quiet(w.console));
  }

  /** The sequence check at the end of runClientOperation passes in every run, so an operation always frees its client. */
  lemma {:induction false} SettlingFreesTheClient(steps: seq<Step>, step: Step)
    requires Run(steps).Some? && Enabled(Run(steps).value, step) && step.SettleOperation?
    ensures var w := Run(steps).value;
            var call := w.flights[step.slot].call;
            && Lookup(w.console.sequences, call.id) == Some(call.sequence)
            && call.id in w.console.busy && Apply(w, step).console.busy == w.console.busy - {call.id}
  {
    RunKeepsInv(steps);
    SettlingFrees(Run(steps).value, step);
  }

  /** Once nothing is in flight the panel is idle: no flag stays set and no client stays busy. */
  lemma {:induction false} IdleWhenNothingIsInFlight(steps: seq<Step>)
    requires Run(steps).Some? && Run(steps).value.flights == map[]
    ensures var c := Run(steps).value.console;
            !c.isLoading && !c.isCreating && !c.isGenerating && c.busy == {}
  {
    RunKeepsInv(steps);
    var w := Run(steps).value;
    forall id
      ensures id !in w.console.busy
    {
      assert Solo(w.flights, Operator(id), id in w.console.busy);
    }
  }

  // ---------- What a response shows ----------

  predicate SameProperty(a: map<string, string>, b: map<string, string>, name: string) {
    (name in a <==> name in b) && (name in a ==> a[name] == b[name])
  }

  /** A listed client's property after an operation on it: what the panel asked for, or else what the response says, or
      else what it was; keys and signing secrets are not taken over. */
  predicate PropertyFollows(
    after: map<string, string>, before: map<string, string>, response: map<string, string>, operation: Operation,
    name: string)
  {
    if name == "api_key" || (name == "webhook_secret" && operation.ConfigureWebhook?) then SameProperty(after, before, name)
    else if name == "policy_version" && operation.AssignPolicy? then IsProperty(Some(operation.version), after, name)
    else if name == "webhook_url" && operation.ConfigureWebhook? then IsProperty(Some(operation.url), after, name)
    else SameProperty(after, if name in response then response else before, name)
  }

  predicate IsFirstWith(items: seq<Client>, i: nat, id: nat) {
    i < |items| && items[i].id == id && forall k :: 0 <= k < i ==> items[k].id != id
  }

  lemma {:induction false} ReplacedItems(items: seq<Client>, id: nat, update: map<string, string>, i: nat)
    requires i < |items|
    ensures |Replaced(items, id, update)| == |items|
    ensures Replaced(items, id, update)[i]
         == if IsFirstWith(items, i, id) then Client(id, items[i].fields + (update - {"api_key"})) else items[i]
  {
    if items[0].id != id && i > 0 {
      ReplacedItems(items[1..], id, update, i - 1);
      assert IsFirstWith(items[1..], i - 1, id) <==> IsFirstWith(items, i, id);
    } else if items[0].id != id {
      if |items| > 1 {
        ReplacedItems(items[1..], id, update, 0);
      }
    }
  }

  /** An operation's response updates the first item of its client, property by property, and no other. */
  lemma {:induction false} ResponseUpdatesItsClient(c: Console, call: Call, client: Client, i: nat, name: string)
    requires call.Operating? && i < |c.items|
    ensures var d := Respond(c, call, client);
            && |d.items| == |c.items| && d.items[i].id == c.items[i].id
            && (!IsFirstWith(c.items, i, client.id) ==> d.items[i] == c.items[i])
            && (IsFirstWith(c.items, i, client.id) ==>
                  PropertyFollows(d.items[i].fields, c.items[i].fields, client.fields, call.operation, name))
  {
    ReplacedItems(c.items, client.id, Update(call.operation, client), i);
  }

  /** An operation's response is announced; a new webhook whose secret is missing is an error. Nothing but the list, the
      credential and the two texts changes. */
  lemma {:induction false} ResponseIsAnnounced(c: Console, call: Call, client: Client)
    requires call.Operating?
    ensures var d := Respond(c, call, client);
            && d == c.(items := d.items, credential := d.credential, error := d.error, notice := d.notice)
            && match call.operation
               case SetActive(active) => d.error == c.error && d.notice == Some(StatusChanged(active))
               case Rotate => d.error == c.error && d.notice == Some(KeyRotated)
               case AssignPolicy(version) => d.error == c.error && d.notice == Some(PolicyAssigned(version))
               case ConfigureWebhook(url) =>
                 if url == "" then d.error == c.error && d.notice == Some(WebhookCleared)
                 else if BringsSecret(call, client) then d.error == c.error && d.notice == Some(WebhookSet)
                 else d.error == Some(SecretMissing) && d.notice == c.notice
  {
  }

  /** A created client heads the list without its key; a list that is still wanted replaces the shown one; a failure
      leaves the list and, when the session has ended, also the error text. */
  lemma {:induction false} ListsFollowTheirResponses(c: Console, client: Client, sequence: nat, list: seq<Client>, unauthorized: bool)
    ensures var d := FinishCreate(c, Arrived(client));
            && |d.items| == |c.items| + 1 && d.items[1..] == c.items && d.items[0].id == client.id
            && (forall name :: name in d.items[0].fields <==> name in client.fields && name != "api_key")
            && (forall name :: name in d.items[0].fields ==> d.items[0].fields[name] == client.fields[name])
            && d.notice == Some(ClientCreated) && d.error == c.error && !d.isCreating && !d.isGenerating
    ensures FinishLoad(c, sequence, Arrived(list)) == if sequence == c.loadSequence then c.(items := list, isLoading := false) else c
    ensures FinishLoad(c, sequence, Failed(unauthorized))
         == if sequence != c.loadSequence then c
            else c.(isLoading := false, error := if unauthorized then c.error else Some(RequestFailed))
    ensures FinishCreate(c, Failed(unauthorized))
         == c.(isCreating := false, isGenerating := false, error := if unauthorized then c.error else Some(RequestFailed))
  {
  }

  /** An operation that ends frees its client and shows its failure, if any, unless the session has ended. */
  lemma {:induction false} SettlingShowsFailures(c: Console, call: Call)
    requires call.Operating? && call.id in c.sequences && c.sequences[call.id] == call.sequence
    ensures Settle(c, call) == c.(busy := c.busy - {call.id},
                                  error := if call.stage.Threw? && !call.stage.unauthorized then Some(RequestFailed) else c.error)
  {
  }

  /** A call starts exactly when nothing stands in its way, and what starts clears the texts of what was before. */
  lemma {:induction false} CallsStartExactlyWhenFree(c: Console, id: nat, operation: Operation)
    ensures StartLoad(c).1.Some? <==> !c.isCreating && c.busy == {}
    ensures StartCreate(c).1 == Some(Creating) <==> !c.isCreating && !c.isGenerating && c.credential == None
    ensures (StartOperation(c, id, operation).1.Some? && StartOperation(c, id, operation).1.value.Operating?) <==>
              id !in c.busy && (operation.Rotate? || operation.ConfigureWebhook? ==> !c.isGenerating && c.credential == None)
    ensures (operation.Rotate? || operation.ConfigureWebhook?) && (c.isGenerating || c.credential.Some?) ==>
              StartOperation(c, id, operation) == (c.(error := Some(SaveCredentialFirst)), None)
    ensures !c.isCreating && (c.isGenerating || c.credential.Some?) ==>
              StartCreate(c) == (c.(error := Some(SaveCredentialFirst)), None)
    ensures StartCreate(c).1.Some? ==> StartCreate(c).0.error == None && StartCreate(c).0.notice == None
    ensures StartLoad(c).1.Some? ==> StartLoad(c).0.error == None && StartLoad(c).0.notice == c.notice
    ensures StartOperation(c, id, operation).1.Some? && StartOperation(c, id, operation).1.value.Operating? ==>
              StartOperation(c, id, operation).0.error == None && StartOperation(c, id, operation).0.notice == None
  {
  }

  /** Whatever is in flight, the user can clear the credential; with no other call under way the next one may start. */
  lemma {:induction false} ClearingFreesThePanel(w: World)
    ensures Enabled(w, Clear) && Apply(w, Clear).console == w.console.(credential := None)
    ensures w.flights == map[] && Inv(w) ==> StartCreate(Apply(w, Clear).console).1 == Some(Creating)
  {
    if w.flights == map[] && Inv(w) {
      assert !w.console.isCreating && !w.console.isGenerating;
    }
  }

  // ---------- Secrets stay out of the list ----------

  predicate Public(fields: map<string, string>) {
    "api_key" !in fields && "webhook_secret" !in fields
  }

  predicate AllPublic(items: seq<Client>) {
    forall i :: 0 <= i < |items| ==> Public(items[i].fields)
  }

  ghost predicate Listed(fields: map<string, string>) {
    exists c: Server.Client :: fields == Server.ListFields(c)
  }

  ghost predicate AllListed(items: seq<Client>) {
    forall i :: 0 <= i < |items| ==> Listed(items[i].fields)
  }

  /** Every response is what the service answers to that call about some client. The panel creates clients without a
      webhook URL, for which the service stores and shows no secret. */
  ghost predicate Served(w: World, step: Step)
    requires Enabled(w, step)
  {
    match step
    case ListArrives(_, list) => list.Arrived? ==> AllListed(list.body)
    case CreatedArrives(_, created) => created.Arrived? ==> ServedCreation(created.body.fields)
    case OperationArrives(slot, updated) => updated.Arrived? ==> ServedOperation(w.flights[slot].call, updated.body.fields)
    case _ => true
  }

  ghost predicate ServedCreation(fields: map<string, string>) {
    exists c: Server.Client, key: string, random: string ::
      fields == Server.CreatedFields(c, key, Server.StoredSecret("", random))
  }

  ghost predicate ServedOperation(call: Call, fields: map<string, string>)
    requires call.Operating?
  {
    match call.operation
    case SetActive(_) => Listed(fields)
    case AssignPolicy(_) => Listed(fields)
    case Rotate => exists c: Server.Client, key: string :: fields == Server.RotatedFields(c, key)
    case ConfigureWebhook(_) => exists c: Server.Client, secret: string :: fields == Server.WebhookFields(c, secret)
  }

  ghost predicate ServedRun(steps: seq<Step>)
    requires Run(steps).Some?
  {
    steps == []
    || (ServedRun(steps[..|steps| - 1]) && Served(Run(steps[..|steps| - 1]).value, steps[|steps| - 1]))
  }

  /** Only an answer to a creation, rotation or webhook change holds a secret. */
  lemma {:induction false} ListedIsPublic(fields: map<string, string>)
    requires Listed(fields)
    ensures Public(fields)
  {
  }

  lemma {:induction false} ReplacedStaysPublic(items: seq<Client>, id: nat, update: map<string, string>)
    requires AllPublic(items) && "webhook_secret" !in update
    ensures AllPublic(Replaced(items, id, update))
  {
    if items != [] {
      assert Public(items[0].fields);
      ReplacedStaysPublic(items[1..], id, update);
    }
  }

  lemma {:induction false} ServedUpdateHoldsNoSecret(call: Call, client: Client)
    requires call.Operating? && ServedOperation(call, client.fields)
    ensures "webhook_secret" !in Update(call.operation, client)
  {
    match call.operation
    case SetActive(_) => ListedIsPublic(client.fields);
    case AssignPolicy(_) => ListedIsPublic(client.fields);
    case Rotate =>
    case ConfigureWebhook(_) =>
  }

  lemma {:induction false} OperationKeepsPublic(w: World, step: Step)
    requires AllPublic(w.console.items) && Enabled(w, step) && Served(w, step) && step.OperationArrives?
    ensures AllPublic(Apply(w, step).console.items)
  {
    if step.updated.Arrived? {
      var call := w.flights[step.slot].call;
      ServedUpdateHoldsNoSecret(call, step.updated.body);
      ReplacedStaysPublic(w.console.items, step.updated.body.id, Update(call.operation, step.updated.body));
    }
  }

  lemma {:induction false} ListKeepsPublic(w: World, step: Step)
    requires AllPublic(w.console.items) && Enabled(w, step) && Served(w, step) && step.ListArrives?
    ensures AllPublic(Apply(w, step).console.items)
  {
    if step.list.Arrived? {
      forall i | 0 <= i < |step.list.body|
        ensures Public(step.list.body[i].fields)
      {
        ListedIsPublic(step.list.body[i].fields);
      }
    }
  }

  lemma {:induction false} CreatedIsPublicWithoutKey(fields: map<string, string>)
    requires ServedCreation(fields)
    ensures Public(fields - {"api_key"})
  {
  }

  lemma {:induction false} CreationKeepsPublic(w: World, step: Step)
    requires AllPublic(w.console.items) && Enabled(w, step) && Served(w, step) && step.CreatedArrives?
    ensures AllPublic(Apply(w, step).console.items)
  {
    if step.created.Arrived? {
      CreatedIsPublicWithoutKey(step.created.body.fields);
    }
  }

  lemma {:induction false} StepKeepsPublic(w: World, step: Step)
    requires AllPublic(w.console.items) && Enabled(w, step) && Served(w, step)
    ensures AllPublic(Apply(w, step).console.items)
  {
    match step
    case ListArrives(_, _) => ListKeepsPublic(w, step);
    case CreatedArrives(_, _) => CreationKeepsPublic(w, step);
    case OperationArrives(_, _) => OperationKeepsPublic(w, step);
    case _ => assert Apply(w, step).console.items == w.console.items;
  }

  /** With the service's own answers, the one-time credential is the only place the panel keeps a secret. */
  lemma {:induction false} ItemsHoldNoSecrets(steps: seq<Step>)
    requires Run(steps).Some? && ServedRun(steps)
    ensures AllPublic(Run(steps).value.console.items)
  {
    if steps != [] {
      ItemsHoldNoSecrets(steps[..|steps| - 1]);
      StepKeepsPublic(Run(steps[..|steps| - 1]).value, steps[|steps| - 1]);
    }
  }
}
