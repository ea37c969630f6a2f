/** Client applications: API key lookup, rotation and the webhook URL with its signing secret. */
module ClientKeys {
  import opened Results
  import opened Text

  /** SHA-256 of the trimmed key, taken to be injective. */
  datatype KeyHash = KeyHash(of: string)

  function HashKey(key: string): KeyHash {
    KeyHash(Trim(key))
  }

  function KeyPrefix(key: string): string {
    var trimmed := Trim(key);
    if |trimmed| <= 12 then trimmed else trimmed[..12]
  }

  datatype Client = Client(
    userId: nat, name: string, keyHash: KeyHash, keyPrefix: string, active: bool, webhookUrl: string,
    webhookSecret: string, policyVersion: string)

  type Clients = map<nat, Client>

  /** A committed change. */
  datatype Change =
    | Create(id: nat, userId: nat, name: string, key: string, webhookUrl: string, webhookSecret: string, policyVersion: string)
    | Rotate(id: nat, key: string)
    | SetActive(id: nat, active: bool)
    | SetWebhook(id: nat, webhookUrl: string, webhookSecret: string)
    | SetPolicy(id: nat, policyVersion: string)
    | SetName(id: nat, name: string)

  function ApplyChange(clients: Clients, change: Change): Clients {
    match change
    case Create(id, userId, name, key, url, secret, policy) =>
      if id in clients then clients
      else clients[id := Client(userId, name, HashKey(key), KeyPrefix(key), true, url, secret, policy)]
    case Rotate(id, key) =>
      if id in clients then clients[id := clients[id].(keyHash := HashKey(key), keyPrefix := KeyPrefix(key))] else clients
    case SetActive(id, active) =>
      if id in clients then clients[id := clients[id].(active := active)] else clients
    case SetWebhook(id, url, secret) =>
      if id in clients then clients[id := clients[id].(webhookUrl := url, webhookSecret := secret)] else clients
    case SetPolicy(id, policy) =>
      if id in clients then clients[id := clients[id].(policyVersion := policy)] else clients
    case SetName(id, name) => if id in clients then clients[id := clients[id].(name := name)] else clients
  }

  /** The lookup by hash and active status. */
  predicate Authenticates(clients: Clients, key: string, id: nat) {
    id in clients && clients[id].active && clients[id].keyHash == HashKey(key)
  }

  // ---------- What the service draws and stores ----------

  const API_KEY_PREFIX := "hs_live_"
  const SECRET_PREFIX := "whsec_"

  /** The base64url alphabet of section 5 of RFC 4648. */
  predicate IsBase64Url(c: char) {
    'A' <= c <= 'Z' || 'a' <= c <= 'z' || '0' <= c <= '9' || c == '-' || c == '_'
  }

  /** What the random generators deliver once encoded. */
  predicate IsRandom(s: string) {
    s != "" && forall i :: 0 <= i < |s| ==> IsBase64Url(s[i])
  }

  function ApiKey(random: string): string {
    API_KEY_PREFIX + random
  }

  function WebhookSecret(random: string): string {
    SECRET_PREFIX + random
  }

  /** A secret is drawn for a URL only; without one the empty text is stored. */
  function StoredSecret(url: string, random: string): string {
    if url == "" then "" else WebhookSecret(random)
  }

  /** An operator's request with the randomness drawn for it; names, URLs and policy versions are as typed. */
  datatype Intent =
    | AddClient(id: nat, userId: nat, name: string, key: string, typedUrl: string, secret: string, policyVersion: string)
    | RotateKey(id: nat, key: string)
    | SwitchActive(id: nat, active: bool)
    | ConfigureWebhook(id: nat, typedUrl: string, secret: string)
    | AssignPolicy(id: nat, policyVersion: string)
    | Rename(id: nat, name: string)

  /** The change the service asks the store for. */
  function ChangeOf(intent: Intent): Change {
    match intent
    case AddClient(id, userId, name, key, typedUrl, secret, policy) =>
      Create(id, userId, Trim(name), ApiKey(key), Trim(typedUrl), StoredSecret(Trim(typedUrl), secret), Trim(policy))
    case RotateKey(id, key) => Rotate(id, ApiKey(key))
    case SwitchActive(id, active) => SetActive(id, active)
    case ConfigureWebhook(id, typedUrl, secret) => SetWebhook(id, Trim(typedUrl), StoredSecret(Trim(typedUrl), secret))
    case AssignPolicy(id, policy) => SetPolicy(id, Trim(policy))
    case Rename(id, name) => SetName(id, Trim(name))
  }

  // ---------- What the service answers ----------

  function Present(key: string, value: string): map<string, string> {
    if value == "" then map[] else map[key := value]
  }

  /** The public properties of a client; an empty URL or policy version is left out. */
  function ListFields(c: Client): map<string, string> {
    map["name" := c.name, "status" := if c.active then "active" else "inactive", "api_key_prefix" := c.keyPrefix]
    + Present("webhook_url", c.webhookUrl) + Present("policy_version", c.policyVersion)
  }

  function CreatedFields(c: Client, key: string, secret: string): map<string, string> {
    ListFields(c)["api_key" := key] + Present("webhook_secret", secret)
  }

  function RotatedFields(c: Client, key: string): map<string, string> {
    ListFields(c)["api_key" := key]
  }

  function WebhookFields(c: Client, secret: string): map<string, string> {
    ListFields(c) + Present("webhook_secret", secret)
  }

  predicate Says(fields: map<string, string>, name: string, value: string) {
    name in fields && fields[name] == value
  }

  /** The key shown is the one the client, when active, authenticates with; its prefix is that key's beginning. */
  predicate ShowsKey(answer: map<string, string>, clients: Clients, id: nat)
    requires id in clients
  {
    && "api_key" in answer && "api_key_prefix" in answer
    && (Authenticates(clients, answer["api_key"], id) <==> clients[id].active)
    && answer["api_key_prefix"] <= Trim(answer["api_key"])
  }

  /** With a URL the secret shown is the one stored to sign callbacks to it; without, there is none to show. */
  predicate ShowsSecret(answer: map<string, string>, storedUrl: string, storedSecret: string) {
    && (storedUrl != "" ==> Says(answer, "webhook_url", storedUrl) && Says(answer, "webhook_secret", storedSecret))
    && (storedUrl == "" ==> "webhook_url" !in answer && "webhook_secret" !in answer && storedSecret == "")
  }

  /** Listed, a client shows its name, whether it is active, the beginning of its key, and its URL and policy if it has
      them; no key and no secret. */
  lemma {:induction false} ListDescribesTheClient(c: Client)
    ensures var fields := ListFields(c);
            && Says(fields, "name", c.name) && Says(fields, "api_key_prefix", c.keyPrefix)
            && Says(fields, "status", if c.active then "active" else "inactive")
            && (if c.webhookUrl == "" then "webhook_url" !in fields else Says(fields, "webhook_url", c.webhookUrl))
            && (if c.policyVersion == "" then "policy_version" !in fields else Says(fields, "policy_version", c.policyVersion))
            && "api_key" !in fields && "webhook_secret" !in fields
  {
  }

  lemma {:induction false} CreatedShows(c: Client, key: string)
    requires c.webhookUrl == "" <==> c.webhookSecret == ""
    ensures var fields := CreatedFields(c, key, c.webhookSecret);
            && Says(fields, "api_key", key) && Says(fields, "api_key_prefix", c.keyPrefix)
            && ShowsSecret(fields, c.webhookUrl, c.webhookSecret)
  {
    ListDescribesTheClient(c);
  }

  lemma {:induction false} WebhookShows(c: Client)
    requires c.webhookUrl == "" <==> c.webhookSecret == ""
    ensures var fields := WebhookFields(c, c.webhookSecret);
            "api_key" !in fields && ShowsSecret(fields, c.webhookUrl, c.webhookSecret)
  {
    ListDescribesTheClient(c);
  }

  lemma {:induction false} StoredSecretIsPrefixed(url: string, random: string)
    ensures StoredSecret(url, random) == "" <==> url == ""
    ensures url != "" ==> StoredSecret(url, random) == "whsec_" + random
  {
  }

  /** A key shows no more than its first twelve characters, and all of them when it has that many. */
  lemma {:induction false} PrefixIsTwelveCharacters(key: string)
    ensures KeyPrefix(key) <= Trim(key) && (|KeyPrefix(key)| == 12 || KeyPrefix(key) == Trim(key)) && |KeyPrefix(key)| <= 12
  {
  }

  class ClientStore {
    var clients: Clients

    constructor ()
      ensures clients == map[]
    {
      clients := map[];
    }

    method CreateClient(id: nat, userId: nat, name: string, key: string, url: string, secret: string, policy: string)
      requires id !in clients
      modifies this
      ensures clients == ApplyChange(old(clients), Create(id, userId, name, key, url, secret, policy))
    {
      var client := Client(userId, name, HashKey(key), KeyPrefix(key), true, url, secret, policy);
      clients := clients[id := client];
    }

    method RotateClientAPIKey(id: nat, key: string) returns (client: Option<Client>)
      modifies this
      ensures clients == ApplyChange(old(clients), Rotate(id, key))
      ensures if id in old(clients) then client == Some(clients[id]) else client == None
    {
      if id !in clients {
        return None;
      }
      clients := clients[id := clients[id].(keyHash := HashKey(key), keyPrefix := KeyPrefix(key))];
      return Some(clients[id]);
    }

    method UpdateClientStatus(id: nat, active: bool) returns (client: Option<Client>)
      modifies this
      ensures clients == ApplyChange(old(clients), SetActive(id, active))
      ensures if id in old(clients) then client == Some(clients[id]) else client == None
    {
      if id in clients {
        clients := clients[id := clients[id].(active := active)];
      }
      return if id in clients then Some(clients[id]) else None;
    }

    method UpdateClientName(id: nat, name: string) returns (client: Option<Client>)
      modifies this
      ensures clients == ApplyChange(old(clients), SetName(id, name))
      ensures if id in old(clients) then client == Some(clients[id]) && clients[id].name == name else client == None
    {
      if id in clients {
        clients := clients[id := clients[id].(name := name)];
      }
      return if id in clients then Some(clients[id]) else None;
    }

    method UpdateClientPolicyVersion(id: nat, policy: string) returns (client: Option<Client>)
      modifies this
      ensures clients == ApplyChange(old(clients), SetPolicy(id, policy))
      ensures if id in old(clients) then client == Some(clients[id]) && clients[id].policyVersion == policy else client == None
    {
      if id in clients {
        clients := clients[id := clients[id].(policyVersion := policy)];
      }
      return if id in clients then Some(clients[id]) else None;
    }

    method UpdateClientWebhook(id: nat, url: string, secret: string) returns (client: Option<Client>)
      modifies this
      ensures clients == ApplyChange(old(clients), SetWebhook(id, url, secret))
      ensures if id in old(clients) then client == Some(clients[id]) else client == None
    {
      if id !in clients {
        return None;
      }
      clients := clients[id := clients[id].(webhookUrl := url)];
      clients := clients[id := clients[id].(webhookSecret := secret)];
      return Some(clients[id]);
    }

    method AuthenticateAPIKey(key: string) returns (principal: Option<nat>)
      ensures principal.Some? ==> Authenticates(clients, key, principal.value)
      ensures principal.None? ==> forall id :: !Authenticates(clients, key, id)
    {
      var hash := HashKey(key);
      var rest := clients.Keys;
      while rest != {}
        invariant rest <= clients.Keys
        invariant forall id :: id in clients.Keys - rest ==> !Authenticates(clients, key, id)
        decreases rest
      {
        var id :| id in rest;
        if clients[id].keyHash == hash && clients[id].active {
          return Some(id);
        }
        rest := rest - {id};
      }
      return None;
    }
  }

  /** The service methods around the store; randomness is a parameter. */
  class ClientService {
    const store: ClientStore

    constructor (store: ClientStore)
      ensures this.store == store
    {
      this.store := store;
    }

    method CreateClient(id: nat, userId: nat, name: string, key: string, typedUrl: string, secret: string, policy: string)
      returns (answer: map<string, string>)
      requires id !in store.clients
      modifies store
      ensures store.clients == ApplyChange(old(store.clients), ChangeOf(AddClient(id, userId, name, key, typedUrl, secret, policy)))
      ensures id in store.clients
              && answer == CreatedFields(store.clients[id], ApiKey(key), StoredSecret(Trim(typedUrl), secret))
      ensures ShowsKey(answer, store.clients, id) && store.clients[id].active && answer["api_key"] == "hs_live_" + key
      ensures ShowsSecret(answer, store.clients[id].webhookUrl, store.clients[id].webhookSecret)
      ensures store.clients[id].userId == userId && store.clients[id].name == Trim(name)
              && store.clients[id].policyVersion == Trim(policy)
      ensures store.clients[id].webhookUrl == Trim(typedUrl)
              && (Trim(typedUrl) != "" ==> store.clients[id].webhookSecret == "whsec_" + secret)
    {
      var url := Trim(typedUrl);
      var apiKey := ApiKey(key);
      var webhookSecret := "";
      if url != "" {
        webhookSecret := WebhookSecret(secret);
      }
      store.CreateClient(id, userId, Trim(name), apiKey, url, webhookSecret, Trim(policy));
      StoredSecretIsPrefixed(url, secret);
      CreatedShows(store.clients[id], apiKey);
      return CreatedFields(store.clients[id], apiKey, webhookSecret);
    }

    method RotateClientAPIKey(id: nat, key: string) returns (answer: Option<map<string, string>>)
      modifies store
      ensures store.clients == ApplyChange(old(store.clients), ChangeOf(RotateKey(id, key)))
      ensures answer == if id in store.clients then Some(RotatedFields(store.clients[id], ApiKey(key))) else None
      ensures answer.Some? ==>
                id in store.clients && ShowsKey(answer.value, store.clients, id) && answer.value["api_key"] == "hs_live_" + key
    {
      var apiKey := ApiKey(key);
      var client := store.RotateClientAPIKey(id, apiKey);
      if client.None? {
        return None;
      }
      return Some(RotatedFields(client.value, apiKey));
    }

    method UpdateClientWebhook(id: nat, typedUrl: string, secret: string) returns (answer: Option<map<string, string>>)
      modifies store
      ensures store.clients == ApplyChange(old(store.clients), ChangeOf(ConfigureWebhook(id, typedUrl, secret)))
      ensures answer == if id in store.clients
                        then Some(WebhookFields(store.clients[id], StoredSecret(Trim(typedUrl), secret))) else None
      ensures answer.Some? ==>
                && id in store.clients && "api_key" !in answer.value
                && ShowsSecret(answer.value, store.clients[id].webhookUrl, store.clients[id].webhookSecret)
                && store.clients[id].webhookUrl == Trim(typedUrl)
                && (Trim(typedUrl) != "" ==> store.clients[id].webhookSecret == "whsec_" + secret)
    {
      var url := Trim(typedUrl);
      var webhookSecret := "";
      if url != "" {
        webhookSecret := WebhookSecret(secret);
      }
      var client := store.UpdateClientWebhook(id, url, webhookSecret);
      if client.None? {
        return None;
      }
      var returned := "";
      if url != "" {
        returned := client.value.webhookSecret;
      }
      StoredSecretIsPrefixed(url, secret);
      WebhookShows(client.value);
      return Some(WebhookFields(client.value, returned));
    }
  }

  // ---------- Operators working at the same time ----------

  /** drafts are changes drawn up by an operator's request and not committed yet. */
  datatype World = World(clients: Clients, drafts: map<nat, Change>, log: seq<Change>, minted: set<string>)

  datatype Step =
    | Draft(worker: nat, intent: Intent)
    | Commit(worker: nat)
    | Drop(worker: nat)

  const START := World(map[], map[], [], {})

  function KeyOf(change: Change): Option<string> {
    if change.Create? || change.Rotate? then Some(change.key) else None
  }

  /** The randomness of an intent. */
  function Drawn(intent: Intent): seq<string> {
    match intent
    case AddClient(_, _, _, key, _, secret, _) => [key, secret]
    case RotateKey(_, key) => [key]
    case ConfigureWebhook(_, _, secret) => [secret]
    case _ => []
  }

  /** What the generators deliver is random text that was not drawn before. */
  predicate Fresh(intent: Intent, minted: set<string>) {
    && (forall i :: 0 <= i < |Drawn(intent)| ==> IsRandom(Drawn(intent)[i]) && Drawn(intent)[i] !in minted)
    && (forall i, j :: 0 <= i < j < |Drawn(intent)| ==> Drawn(intent)[i] != Drawn(intent)[j])
  }

  predicate Enabled(s: World, step: Step) {
    match step
    case Draft(w, intent) => w !in s.drafts && Fresh(intent, s.minted)
    case Commit(w) => w in s.drafts
    case Drop(w) => w in s.drafts
  }

  /** A commit that finds its row (or, for a creation, a free id) is logged. */
  function Apply(s: World, step: Step): World
    requires Enabled(s, step)
  {
    match step
    case Draft(w, intent) =>
      s.(drafts := s.drafts[w := ChangeOf(intent)], minted := s.minted + set random | random in Drawn(intent))
    case Commit(w) =>
      var change := s.drafts[w];
      if change.Create? <==> change.id !in s.clients then
        s.(clients := ApplyChange(s.clients, change), drafts := s.drafts - {w}, log := s.log + [change])
      else s.(drafts := s.drafts - {w})
    case Drop(w) => s.(drafts := s.drafts - {w})
  }

  function Run(steps: seq<Step>): Option<World> {
    if steps == [] then Some(START)
    else
      var before := Run(steps[..|steps| - 1]);
      var step := steps[|steps| - 1];
      if before.Some? && Enabled(before.value, step) then Some(Apply(before.value, step)) else None
  }

  // ---------- The simple map the store refines ----------

  /** Where the log last creates the client or rotates its key, or -1. */
  function LastKeyIndex(log: seq<Change>, id: nat): (i: int)
    ensures -1 <= i < |log|
    ensures i >= 0 ==> log[i].id == id && KeyOf(log[i]).Some?
    ensures forall j :: i < j < |log| && log[j].id == id ==> KeyOf(log[j]).None?
  {
    if log == [] then -1
    else
      var last := log[|log| - 1];
      if last.id == id && KeyOf(last).Some? then |log| - 1 else LastKeyIndex(log[..|log| - 1], id)
  }

  /** The key of the last committed creation or rotation of a client. */
  function LastKey(log: seq<Change>, id: nat): Option<string> {
    var i := LastKeyIndex(log, id);
    if i < 0 then None else KeyOf(log[i])
  }

  function LastActive(log: seq<Change>, id: nat): bool {
    if log == [] then false
    else
      var last := log[|log| - 1];
      if last.id == id && last.Create? then true
      else if last.id == id && last.SetActive? then last.active
      else LastActive(log[..|log| - 1], id)
  }

  function LastWebhook(log: seq<Change>, id: nat): (string, string) {
    if log == [] then ("", "")
    else
      var last := log[|log| - 1];
      if last.id == id && (last.Create? || last.SetWebhook?) then (last.webhookUrl, last.webhookSecret)
      else LastWebhook(log[..|log| - 1], id)
  }

  function LastPolicy(log: seq<Change>, id: nat): string {
    if log == [] then ""
    else
      var last := log[|log| - 1];
      if last.id == id && (last.Create? || last.SetPolicy?) then last.policyVersion
      else LastPolicy(log[..|log| - 1], id)
  }

  function LastName(log: seq<Change>, id: nat): string {
    if log == [] then ""
    else
      var last := log[|log| - 1];
      if last.id == id && (last.Create? || last.SetName?) then last.name else LastName(log[..|log| - 1], id)
  }

  /** The user the client was created for. */
  function Owner(log: seq<Change>, id: nat): nat {
    if log == [] then 0
    else
      var last := log[|log| - 1];
      if last.id == id && last.Create? then last.userId else Owner(log[..|log| - 1], id)
  }

  /** A row says what the log says. */
  predicate RowFollowsLog(clients: Clients, log: seq<Change>, id: nat) {
    if id in clients then
      && clients[id].userId == Owner(log, id) && clients[id].name == LastName(log, id)
      && clients[id].policyVersion == LastPolicy(log, id)
      && LastKey(log, id).Some?
      && clients[id].keyHash == HashKey(LastKey(log, id).value)
      && clients[id].keyPrefix == KeyPrefix(LastKey(log, id).value)
      && clients[id].active == LastActive(log, id)
      && (clients[id].webhookUrl, clients[id].webhookSecret) == LastWebhook(log, id)
    else LastKey(log, id).None?
  }

  lemma {:induction false} RowFollowsOneMore(clients: Clients, log: seq<Change>, change: Change, id: nat)
    requires RowFollowsLog(clients, log, id) && RowFollowsLog(clients, log, change.id)
    requires change.Create? <==> change.id !in clients
    ensures RowFollowsLog(ApplyChange(clients, change), log + [change], id)
  {
    assert (log + [change])[..|log|] == log;
  }

  /** Owner, name, key, prefix, status, webhook and policy of every client are those the log last gave it. */
  lemma {:induction false} RunFollowsLog(steps: seq<Step>)
    requires Run(steps).Some?
    ensures forall id :: RowFollowsLog(Run(steps).value.clients, Run(steps).value.log, id)
  {
    if steps != [] {
      var s, step := Run(steps[..|steps| - 1]).value, steps[|steps| - 1];
      RunFollowsLog(steps[..|steps| - 1]);
      forall id
        ensures RowFollowsLog(Run(steps).value.clients, Run(steps).value.log, id)
      {
        assert RowFollowsLog(s.clients, s.log, id);
        if step.Commit? {
          var change := s.drafts[step.worker];
          assert RowFollowsLog(s.clients, s.log, change.id);
          if change.Create? <==> change.id !in s.clients {
            RowFollowsOneMore(s.clients, s.log, change, id);
          }
        }
      }
    }
  }

  // ---------- What follows from how the service draws ----------

  /** A key is the prefix and text drawn before, and a secret goes with a URL. */
  predicate FromService(change: Change, minted: set<string>) {
    && (KeyOf(change).Some? ==> exists random :: random in minted && IsRandom(random) && KeyOf(change).value == ApiKey(random))
    && (change.Create? || change.SetWebhook? ==> (change.webhookUrl == "" <==> change.webhookSecret == ""))
  }

  lemma {:induction false} ServiceChanges(intent: Intent, minted: set<string>)
    requires Fresh(intent, {}) && (forall i :: 0 <= i < |Drawn(intent)| ==> Drawn(intent)[i] in minted)
    ensures FromService(ChangeOf(intent), minted)
  {
    if KeyOf(ChangeOf(intent)).Some? {
      assert Drawn(intent)[0] in minted && IsRandom(Drawn(intent)[0]);
    }
  }

  ghost predicate ServiceMade(s: World) {
    && (forall w :: w in s.drafts ==> FromService(s.drafts[w], s.minted))
    && (forall i :: 0 <= i < |s.log| ==> FromService(s.log[i], s.minted))
  }

  lemma {:induction false} ServiceMadeStep(s: World, step: Step)
    requires ServiceMade(s) && Enabled(s, step)
    ensures ServiceMade(Apply(s, step))
  {
    var t := Apply(s, step);
    forall w | w in t.drafts
      ensures FromService(t.drafts[w], t.minted)
    {
      if step.Draft? && w == step.worker {
        ServiceChanges(step.intent, t.minted);
      }
    }
    forall i | 0 <= i < |t.log|
      ensures FromService(t.log[i], t.minted)
    {
    }
  }

  /** No two changes of a run carry the same key. */
  ghost predicate KeysDistinct(s: World) {
    && (forall v, w :: v in s.drafts && w in s.drafts && v != w && KeyOf(s.drafts[v]).Some? ==>
          KeyOf(s.drafts[v]) != KeyOf(s.drafts[w]))
    && (forall w, i :: w in s.drafts && 0 <= i < |s.log| && KeyOf(s.drafts[w]).Some? ==>
          KeyOf(s.drafts[w]) != KeyOf(s.log[i]))
    && (forall i, j :: 0 <= i < j < |s.log| && KeyOf(s.log[i]).Some? ==> KeyOf(s.log[i]) != KeyOf(s.log[j]))
  }

  /** A key drawn now is no key drawn before. */
  lemma {:induction false} NewKeyDiffers(intent: Intent, minted: set<string>, change: Change)
    requires Fresh(intent, minted) && FromService(change, minted) && KeyOf(ChangeOf(intent)).Some?
    ensures KeyOf(ChangeOf(intent)) != KeyOf(change)
  {
    if KeyOf(change).Some? {
      var random :| random in minted && IsRandom(random) && KeyOf(change).value == ApiKey(random);
      assert Drawn(intent)[0] !in minted;
      assert ApiKey(random)[|API_KEY_PREFIX|..] == random;
      assert ApiKey(Drawn(intent)[0])[|API_KEY_PREFIX|..] == Drawn(intent)[0];
    }
  }

  lemma {:induction false} KeysDistinctStep(s: World, step: Step)
    requires ServiceMade(s) && KeysDistinct(s) && Enabled(s, step)
    ensures KeysDistinct(Apply(s, step))
  {
    if step.Draft? && KeyOf(ChangeOf(step.intent)).Some? {
      forall w | w in s.drafts
        ensures KeyOf(ChangeOf(step.intent)) != KeyOf(s.drafts[w])
      {
        NewKeyDiffers(step.intent, s.minted, s.drafts[w]);
      }
      forall i | 0 <= i < |s.log|
        ensures KeyOf(ChangeOf(step.intent)) != KeyOf(s.log[i])
      {
        NewKeyDiffers(step.intent, s.minted, s.log[i]);
      }
    }
  }

  lemma {:induction false} RunKeepsKeysDistinct(steps: seq<Step>)
    requires Run(steps).Some?
    ensures ServiceMade(Run(steps).value) && KeysDistinct(Run(steps).value)
  {
    if steps != [] {
      RunKeepsKeysDistinct(steps[..|steps| - 1]);
      ServiceMadeStep(Run(steps[..|steps| - 1]).value, steps[|steps| - 1]);
      KeysDistinctStep(Run(steps[..|steps| - 1]).value, steps[|steps| - 1]);
    }
  }

  /** A change that is drawn up and committed with nobody in between: a new client, or a rotated one that is active,
      authenticates with the key drawn for it from then on. */
  lemma {:induction false} CommittedKeyWorks(s: World, w: nat, intent: Intent)
    requires w !in s.drafts && Fresh(intent, s.minted) && (intent.AddClient? || intent.RotateKey?)
    requires intent.AddClient? <==> intent.id !in s.clients
    ensures Enabled(s, Draft(w, intent)) && Enabled(Apply(s, Draft(w, intent)), Commit(w))
    ensures var t := Apply(Apply(s, Draft(w, intent)), Commit(w));
            && w !in t.drafts && intent.id in t.clients && |t.log| == |s.log| + 1
            && (Authenticates(t.clients, "hs_live_" + intent.key, intent.id) <==>
                  intent.AddClient? || s.clients[intent.id].active)
            && forall other :: other != intent.id && other in s.clients ==> other in t.clients && t.clients[other] == s.clients[other]
  {
    assert Apply(s, Draft(w, intent)).drafts[w] == ChangeOf(intent);
  }

  /** Drawn keys have no white space around them, so hashing trims nothing off. */
  lemma {:induction false} KeysAreBare(random: string)
    requires IsRandom(random)
    ensures Trim(ApiKey(random)) == ApiKey(random)
  {
    var key := ApiKey(random);
    assert key[|key| - 1] == random[|random| - 1];
    StripFixesStripped(key, IsSpace);
  }

  lemma {:induction false} LoggedKeysAreBare(steps: seq<Step>, i: nat)
    requires Run(steps).Some? && i < |Run(steps).value.log| && KeyOf(Run(steps).value.log[i]).Some?
    ensures var key := KeyOf(Run(steps).value.log[i]).value; Trim(key) == key
  {
    RunKeepsKeysDistinct(steps);
    var s := Run(steps).value;
    assert FromService(s.log[i], s.minted);
    var random :| random in s.minted && IsRandom(random) && KeyOf(s.log[i]).value == ApiKey(random);
    KeysAreBare(random);
  }

  /** In every run a presented key authenticates a client exactly when that client is active and the key, trimmed,
      is the one of its last committed creation or rotation; no key ever authenticates two clients. */
  lemma {:induction false} KeyLookupIsLastKey(steps: seq<Step>, key: string, id: nat)
    requires Run(steps).Some?
    ensures var s := Run(steps).value;
            && (Authenticates(s.clients, key, id) <==> LastKey(s.log, id) == Some(Trim(key)) && LastActive(s.log, id))
            && (forall other :: Authenticates(s.clients, key, id) && Authenticates(s.clients, key, other) ==> other == id)
  {
    AuthenticatesByLastKey(steps, key, id);
    RunKeepsKeysDistinct(steps);
    forall other | Authenticates(Run(steps).value.clients, key, id) && Authenticates(Run(steps).value.clients, key, other)
      ensures other == id
    {
      AuthenticatesByLastKey(steps, key, other);
    }
  }

  lemma {:induction false} AuthenticatesByLastKey(steps: seq<Step>, key: string, id: nat)
    requires Run(steps).Some?
    ensures var s := Run(steps).value;
            Authenticates(s.clients, key, id) <==> LastKey(s.log, id) == Some(Trim(key)) && LastActive(s.log, id)
  {
    var s := Run(steps).value;
    RunFollowsLog(steps);
    assert RowFollowsLog(s.clients, s.log, id);
    if LastKeyIndex(s.log, id) >= 0 {
      LoggedKeysAreBare(steps, LastKeyIndex(s.log, id));
    }
  }

  /** Of several rotations of one client only the last to commit leaves a working key. */
  lemma {:induction false} OnlyLastRotationWins(steps: seq<Step>, earlier: nat, later: nat)
    requires Run(steps).Some? && earlier < later < |Run(steps).value.log|
    requires var log := Run(steps).value.log;
             log[earlier].id == log[later].id && KeyOf(log[earlier]).Some? && KeyOf(log[later]).Some?
    ensures var s := Run(steps).value; !Authenticates(s.clients, KeyOf(s.log[earlier]).value, s.log[earlier].id)
  {
    var s := Run(steps).value;
    var key, id := KeyOf(s.log[earlier]).value, s.log[earlier].id;
    RunKeepsKeysDistinct(steps);
    LoggedKeysAreBare(steps, earlier);
    AuthenticatesByLastKey(steps, key, id);
    assert LastKeyIndex(s.log, id) >= later;
  }

  lemma {:induction false} LastWebhookIsLogged(log: seq<Change>, id: nat)
    ensures LastWebhook(log, id) == ("", "")
            || exists i :: 0 <= i < |log| && log[i].id == id && (log[i].Create? || log[i].SetWebhook?)
                           && LastWebhook(log, id) == (log[i].webhookUrl, log[i].webhookSecret)
  {
    if log != [] {
      var last, front := log[|log| - 1], log[..|log| - 1];
      if last.id == id && (last.Create? || last.SetWebhook?) {
        assert log[|log| - 1] == last;
      } else {
        LastWebhookIsLogged(front, id);
        if LastWebhook(front, id) != ("", "") {
          var i :| 0 <= i < |front| && front[i].id == id && (front[i].Create? || front[i].SetWebhook?)
                   && LastWebhook(front, id) == (front[i].webhookUrl, front[i].webhookSecret);
          assert log[i] == front[i];
        }
      }
    }
  }

  /** The webhook URL and secret of a client always come from one creation or update, and because the service draws a
      secret exactly for a URL, both are set or neither is. */
  lemma {:induction false} WebhookPairIsOneUpdate(steps: seq<Step>, id: nat)
    requires Run(steps).Some? && id in Run(steps).value.clients
    ensures var c, log := Run(steps).value.clients[id], Run(steps).value.log;
            && (c.webhookUrl, c.webhookSecret) == LastWebhook(log, id)
            && (c.webhookUrl == "" <==> c.webhookSecret == "")
  {
    var s := Run(steps).value;
    RunFollowsLog(steps);
    RunKeepsKeysDistinct(steps);
    assert RowFollowsLog(s.clients, s.log, id);
    LastWebhookIsLogged(s.log, id);
    if LastWebhook(s.log, id) != ("", "") {
      var i :| 0 <= i < |s.log| && s.log[i].id == id && (s.log[i].Create? || s.log[i].SetWebhook?)
               && LastWebhook(s.log, id) == (s.log[i].webhookUrl, s.log[i].webhookSecret);
      assert FromService(s.log[i], s.minted);
    }
  }
}
