/** Registration across API processes: one row lock serializes the decision who becomes the first administrator. */
module Bootstrap {
  import opened Results
  import opened Text

  datatype Role = Admin | Plain

  /** token is the bootstrap token presented at registration. */
  datatype Request = Request(username: string, email: string, token: string)

  datatype User = User(username: string, email: string, role: Role, token: string)

  datatype RegisterError = DuplicateRecord | Forbidden

  predicate ValidToken(provided: string, configured: string) {
    Trim(configured) != "" && provided == configured
  }

  predicate Taken(users: seq<User>, req: Request) {
    exists i :: 0 <= i < |users| && (users[i].username == req.username || users[i].email == req.email)
  }

  function RoleForCount(count: nat): Role {
    if count == 0 then Admin else Plain
  }

  /** One registration with the table to itself. */
  function Register(users: seq<User>, req: Request, configured: string): Result<User, RegisterError> {
    if Taken(users, req) then Err(DuplicateRecord)
    else if RoleForCount(|users|) == Admin && !ValidToken(req.token, configured) then Err(Forbidden)
    else Ok(User(req.username, req.email, RoleForCount(|users|), req.token))
  }

  /** Registrations one after the other; refused ones leave no trace. */
  function RegisterAll(reqs: seq<Request>, configured: string): seq<User> {
    if reqs == [] then []
    else
      var users := RegisterAll(reqs[..|reqs| - 1], configured);
      match Register(users, reqs[|reqs| - 1], configured)
      case Ok(user) => users + [user]
      case Err(_) => users
  }

  class AuthHandler {
    var users: seq<User>
    const adminBootstrapToken: string

    constructor (token: string)
      ensures users == [] && adminBootstrapToken == token
    {
      users := [];
      adminBootstrapToken := token;
    }

    method CreateRegisteredUser(req: Request) returns (r: Result<User, RegisterError>)
      modifies this
      ensures r == Register(old(users), req, adminBootstrapToken)
      ensures users == if r.Ok? then old(users) + [r.value] else old(users)
    {
      var i := 0;
      while i < |users|
        invariant 0 <= i <= |users|
        invariant forall k :: 0 <= k < i ==> users[k].username != req.username && users[k].email != req.email
      {
        if users[i].username == req.username || users[i].email == req.email {
          return Err(DuplicateRecord);
        }
        i := i + 1;
      }
      var role := RoleForCount(|users|);
      if role == Admin {
        if !ValidToken(req.token, adminBootstrapToken) {
          return Err(Forbidden);
        }
      }
      var user := User(req.username, req.email, role, req.token);
      users := users + [user];
      return Ok(user);
    }
  }

  // ---------- Transactions of many processes ----------

  /** A transaction's progress; snapshot is what its plain reads see, fixed by the first of them. */
  datatype Phase =
    | Idle
    | Waiting(req: Request)
    | Locked(req: Request)
    | Reading(req: Request, snapshot: seq<User>)
    | Counting(req: Request, snapshot: seq<User>)
    | Ready(req: Request, role: Role)
    | Inserted(req: Request, user: User)

  /** users are the committed rows; log lists the requests whose transactions committed. */
  datatype World = World(users: seq<User>, lock: Option<nat>, phases: map<nat, Phase>, log: seq<Request>)

  datatype Step =
    | Begin(worker: nat, req: Request)
    | TakeLock(worker: nat)
    | ReadUsers(worker: nat)
    | CheckDuplicate(worker: nat)
    | CountUsers(worker: nat)
    | InsertUser(worker: nat)
    | Commit(worker: nat)
    | Abort(worker: nat)

  const START := World([], None, map[], [])

  function PhaseOf(s: World, worker: nat): Phase {
    if worker in s.phases then s.phases[worker] else Idle
  }

  predicate Enabled(s: World, step: Step) {
    var p := PhaseOf(s, step.worker);
    match step
    case Begin(_, _) => p.Idle?
    case TakeLock(_) => p.Waiting? && s.lock == None
    case ReadUsers(_) => p.Locked?
    case CheckDuplicate(_) => p.Reading?
    case CountUsers(_) => p.Counting?
    case InsertUser(_) => p.Ready?
    case Commit(_) => p.Inserted?
    case Abort(_) => true
  }

  function Enter(s: World, worker: nat, phase: Phase): World {
    s.(phases := s.phases[worker := phase])
  }

  /** Rolling back or committing gives the lock up. */
  function Leave(s: World, worker: nat): World {
    s.(phases := s.phases[worker := Idle], lock := if s.lock == Some(worker) then None else s.lock)
  }

  function Apply(s: World, step: Step, configured: string): World
    requires Enabled(s, step)
  {
    var w := step.worker;
    var p := PhaseOf(s, w);
    match step
    case Begin(_, req) => Enter(s, w, Waiting(req))
    case TakeLock(_) => Enter(s, w, Locked(p.req)).(lock := Some(w))
    case ReadUsers(_) => Enter(s, w, Reading(p.req, s.users))
    case CheckDuplicate(_) => if Taken(p.snapshot, p.req) then Leave(s, w) else Enter(s, w, Counting(p.req, p.snapshot))
    case CountUsers(_) =>
      var role := RoleForCount(|p.snapshot|);
      if role == Admin && !ValidToken(p.req.token, configured) then Leave(s, w) else Enter(s, w, Ready(p.req, role))
    case InsertUser(_) =>
      if Taken(s.users, p.req) then Leave(s, w)
      else Enter(s, w, Inserted(p.req, User(p.req.username, p.req.email, p.role, p.req.token)))
    case Commit(_) => Leave(s, w).(users := s.users + [p.user], log := s.log + [p.req])
    case Abort(_) => Leave(s, w)
  }

  function Run(steps: seq<Step>, configured: string): Option<World> {
    if steps == [] then Some(START)
    else
      var before := Run(steps[..|steps| - 1], configured);
      var step := steps[|steps| - 1];
      if before.Some? && Enabled(before.value, step) then Some(Apply(before.value, step, configured)) else None
  }

  /** What a transaction knows is still true when it commits, because only the lock holder gets that far. */
  predicate KnowsTable(s: World, worker: nat, configured: string) {
    match PhaseOf(s, worker)
    case Idle => s.lock != Some(worker)
    case Waiting(_) => s.lock != Some(worker)
    case Locked(_) => s.lock == Some(worker)
    case Reading(_, snapshot) => s.lock == Some(worker) && snapshot == s.users
    case Counting(req, snapshot) => s.lock == Some(worker) && snapshot == s.users && !Taken(s.users, req)
    case Ready(req, role) =>
      s.lock == Some(worker) && Register(s.users, req, configured) == Ok(User(req.username, req.email, role, req.token))
    case Inserted(req, user) => s.lock == Some(worker) && Register(s.users, req, configured) == Ok(user)
  }

  ghost predicate Serial(s: World, configured: string) {
    (forall w :: KnowsTable(s, w, configured)) && s.users == RegisterAll(s.log, configured)
  }

  /** A worker that does not act keeps its phase; the table and the lock only move under the lock's holder. */
  lemma {:induction false} BystanderKnowsTable(s: World, step: Step, configured: string, worker: nat)
    requires KnowsTable(s, worker, configured) && KnowsTable(s, step.worker, configured)
    requires Enabled(s, step) && worker != step.worker
    ensures KnowsTable(Apply(s, step, configured), worker, configured)
  {
    var t := Apply(s, step, configured);
    assert PhaseOf(t, worker) == PhaseOf(s, worker);
    assert t.lock == Some(worker) <==> s.lock == Some(worker);
    assert t.users != s.users ==> s.lock == Some(step.worker);
  }

  /** What the acting worker learns, or passes on, is true of the table it holds. */
  lemma {:induction false} ActorKnowsTable(s: World, step: Step, configured: string)
    requires KnowsTable(s, step.worker, configured) && Enabled(s, step)
    ensures KnowsTable(Apply(s, step, configured), step.worker, configured)
  {
  }

  lemma {:induction false} CommitIsSerial(s: World, step: Step, configured: string)
    requires KnowsTable(s, step.worker, configured) && Enabled(s, step) && s.users == RegisterAll(s.log, configured)
    ensures Apply(s, step, configured).users == RegisterAll(Apply(s, step, configured).log, configured)
  {
    var t := Apply(s, step, configured);
    if step.Commit? {
      assert t.log[..|s.log|] == s.log;
    }
  }

  lemma {:induction false} SerialStep(s: World, step: Step, configured: string)
    requires Serial(s, configured) && Enabled(s, step)
    ensures Serial(Apply(s, step, configured), configured)
  {
    forall w
      ensures KnowsTable(Apply(s, step, configured), w, configured)
    {
      assert KnowsTable(s, w, configured) && KnowsTable(s, step.worker, configured);
      if w == step.worker {
        ActorKnowsTable(s, step, configured);
      } else {
        BystanderKnowsTable(s, step, configured, w);
      }
    }
    assert KnowsTable(s, step.worker, configured);
    CommitIsSerial(s, step, configured);
  }

  lemma {:induction false} RunsAreSerial(steps: seq<Step>, configured: string)
    requires Run(steps, configured).Some?
    ensures Serial(Run(steps, configured).value, configured)
  {
    if steps != [] {
      RunsAreSerial(steps[..|steps| - 1], configured);
      SerialStep(Run(steps[..|steps| - 1], configured).value, steps[|steps| - 1], configured);
    }
  }

  /** The users of a table built by one registration after another. */
  ghost predicate OneAdmin(users: seq<User>, configured: string) {
    && (users != [] ==> users[0].role == Admin && users[0].token == configured && !AllSpace(configured, IsSpace))
    && (forall i :: 0 < i < |users| ==> users[i].role == Plain)
    && (forall i, j :: 0 <= i < j < |users| ==>
          users[i].username != users[j].username && users[i].email != users[j].email)
  }

  lemma {:induction false} RegisterAllKeepsOneAdmin(reqs: seq<Request>, configured: string)
    ensures OneAdmin(RegisterAll(reqs, configured), configured)
  {
    if reqs != [] {
      RegisterAllKeepsOneAdmin(reqs[..|reqs| - 1], configured);
      BlankIsAllSpace(configured, IsSpace);
    }
  }

  /** A registration is refused as a duplicate exactly when its name or email is taken, and as forbidden exactly when it
      would be the first without presenting a configured token; otherwise it adds the user it asks for. */
  lemma {:induction false} RegisteredExactlyWhen(users: seq<User>, req: Request, configured: string)
    ensures var r := Register(users, req, configured);
            var taken := exists i :: 0 <= i < |users| && (users[i].username == req.username || users[i].email == req.email);
            var bootstraps := users == [];
            var presented := req.token == configured && !AllSpace(configured, IsSpace);
            && (r == Err(DuplicateRecord) <==> taken)
            && (r == Err(Forbidden) <==> !taken && bootstraps && !presented)
            && (r.Ok? <==> !taken && (bootstraps ==> presented))
            && (r.Ok? ==> r.value == User(req.username, req.email, if bootstraps then Admin else Plain, req.token))
  {
    BlankIsAllSpace(configured, IsSpace);
  }

  // ---------- A registration that nobody disturbs ----------

  function RunFrom(s: World, steps: seq<Step>, configured: string): Option<World>
    decreases |steps|
  {
    if steps == [] then Some(s)
    else if Enabled(s, steps[0]) then RunFrom(Apply(s, steps[0], configured), steps[1..], configured) else None
  }

  /** What a transaction goes through up to its duplicate check, and from there. */
  function Checking(w: nat, req: Request): seq<Step> {
    [Begin(w, req), TakeLock(w), ReadUsers(w), CheckDuplicate(w)]
  }

  function Storing(w: nat): seq<Step> {
    [CountUsers(w), InsertUser(w), Commit(w)]
  }

  lemma {:induction false} CheckingAlone(s: World, w: nat, req: Request, configured: string) returns (t: World)
    requires PhaseOf(s, w).Idle? && s.lock == None
    ensures RunFrom(s, Checking(w, req), configured) == Some(t) && t.users == s.users && t.log == s.log
    ensures if Taken(s.users, req) then t.lock == None && PhaseOf(t, w) == Idle
            else t.lock == Some(w) && PhaseOf(t, w) == Counting(req, s.users)
  {
    var a := Apply(s, Begin(w, req), configured);
    var b := Apply(a, TakeLock(w), configured);
    var c := Apply(b, ReadUsers(w), configured);
    t := Apply(c, CheckDuplicate(w), configured);
    var steps := Checking(w, req);
    assert steps[1..] == [TakeLock(w), ReadUsers(w), CheckDuplicate(w)];
    assert steps[1..][1..] == [ReadUsers(w), CheckDuplicate(w)];
    assert steps[1..][1..][1..] == [CheckDuplicate(w)];
    assert steps[1..][1..][1..][1..] == [];
    assert RunFrom(c, [CheckDuplicate(w)], configured) == Some(t);
    assert RunFrom(b, [ReadUsers(w), CheckDuplicate(w)], configured) == Some(t);
  }

  /** A transaction that waits for nobody registers exactly what one registration with the table to itself does, and gives
      the lock back; one that is refused leaves the table as it was. */
  lemma {:induction false} UndisturbedRegistration(s: World, w: nat, req: Request, configured: string) returns (t: World)
    requires PhaseOf(s, w).Idle? && s.lock == None
    ensures t.lock == None && PhaseOf(t, w) == Idle
    ensures match Register(s.users, req, configured)
            case Ok(user) =>
              && RunFrom(s, Checking(w, req) + Storing(w), configured) == Some(t)
              && t.users == s.users + [user] && t.log == s.log + [req]
            case Err(DuplicateRecord) => RunFrom(s, Checking(w, req), configured) == Some(t) && t.users == s.users
            case Err(Forbidden) =>
              RunFrom(s, Checking(w, req) + [CountUsers(w)], configured) == Some(t) && t.users == s.users
  {
    var checked := CheckingAlone(s, w, req, configured);
    if Taken(s.users, req) {
      t := checked;
    } else {
      var counted := Apply(checked, CountUsers(w), configured);
      var none: seq<Step> := [];
      if Register(s.users, req, configured).Err? {
        t := counted;
        assert [CountUsers(w)][1..] == none;
        RunsJoin(s, Checking(w, req), [CountUsers(w)], configured);
      } else {
        var inserted := Apply(counted, InsertUser(w), configured);
        t := Apply(inserted, Commit(w), configured);
        var steps := Storing(w);
        assert steps[1..] == [InsertUser(w), Commit(w)] && steps[1..][1..] == [Commit(w)] && steps[1..][1..][1..] == none;
        assert RunFrom(inserted, [Commit(w)], configured) == Some(t);
        RunsJoin(s, Checking(w, req), Storing(w), configured);
      }
    }
  }

  lemma {:induction false} RunsJoin(s: World, a: seq<Step>, b: seq<Step>, configured: string)
    requires RunFrom(s, a, configured).Some?
    ensures RunFrom(s, a + b, configured) == RunFrom(RunFrom(s, a, configured).value, b, configured)
    decreases |a|
  {
    if a == [] {
      assert a + b == b;
    } else {
      assert (a + b)[1..] == a[1..] + b;
      RunsJoin(Apply(s, a[0], configured), a[1..], b, configured);
    }
  }

  /** However the transactions of any number of processes interleave, the committed users are those of the same
      registrations made one at a time; so there is exactly one administrator once there are users, that one
      presented the configured token, and usernames and emails stay unique. */
  lemma OneBootstrapAdmin(steps: seq<Step>, configured: string)
    requires Run(steps, configured).Some?
    ensures var s := Run(steps, configured).value;
            s.users == RegisterAll(s.log, configured) && OneAdmin(s.users, configured)
  {
    RunsAreSerial(steps, configured);
    RegisterAllKeepsOneAdmin(Run(steps, configured).value.log, configured);
  }

  /** Without a configured token nobody can ever register. */
  lemma BlankTokenAdmitsNobody(steps: seq<Step>, configured: string)
    requires Run(steps, configured).Some? && Trim(configured) == ""
    ensures Run(steps, configured).value.users == []
  {
    OneBootstrapAdmin(steps, configured);
    BlankIsAllSpace(configured, IsSpace);
  }
}
