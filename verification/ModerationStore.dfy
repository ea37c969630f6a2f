/** The moderation tables and the transactions on them. */
module ModerationStore {
  import opened Results
  import opened ModerationTypes
  import opened Deliveries

  datatype Db = Db(requests: seq<Request>, results: seq<ResultRow>, cases: seq<ReviewCase>, deliveries: Rows)

  const EMPTY_DB := Db([], [], [], map[])

  datatype Stored = Stored(request: Request, result: ResultRow, reviewCase: Option<ReviewCase>)

  datatype SaveError = DuplicateKey

  datatype FinalizeError = CaseNotFound | AlreadyFinalized

  // ---------- Unique indexes ----------

  predicate KeyTaken(requests: seq<Request>, key: Option<string>) {
    key.Some? && exists i :: 0 <= i < |requests| && requests[i].key == key
  }

  predicate IdTaken(requests: seq<Request>, requestId: string) {
    exists i :: 0 <= i < |requests| && requests[i].requestId == requestId
  }

  // ---------- Lookups ----------

  /** Position of the request of (client, external id), or -1. */
  function PairIndex(requests: seq<Request>, clientId: nat, externalId: string): (i: int)
    ensures -1 <= i < |requests|
    ensures i >= 0 ==> requests[i].clientId == Some(clientId) && requests[i].externalId == externalId
    ensures i < 0 ==> forall k :: 0 <= k < |requests| ==>
                        !(requests[k].clientId == Some(clientId) && requests[k].externalId == externalId)
  {
    if requests == [] then -1
    else
      var last := requests[|requests| - 1];
      if last.clientId == Some(clientId) && last.externalId == externalId then |requests| - 1
      else PairIndex(requests[..|requests| - 1], clientId, externalId)
  }

  function ResultIndex(results: seq<ResultRow>, userId: nat, requestId: string): (i: int)
    ensures -1 <= i < |results|
    ensures i >= 0 ==> results[i].userId == userId && results[i].requestId == requestId
    ensures i < 0 ==> forall k :: 0 <= k < |results| ==>
                        !(results[k].userId == userId && results[k].requestId == requestId)
  {
    if results == [] then -1
    else
      var last := results[|results| - 1];
      if last.userId == userId && last.requestId == requestId then |results| - 1
      else ResultIndex(results[..|results| - 1], userId, requestId)
  }

  predicate IsCaseOf(c: ReviewCase, request: Request) {
    c.requestId == request.requestId && c.userId == request.userId && c.clientId == request.clientId
  }

  function CaseIndex(cases: seq<ReviewCase>, request: Request): (i: int)
    ensures -1 <= i < |cases|
    ensures i >= 0 ==> IsCaseOf(cases[i], request)
    ensures i < 0 ==> forall k :: 0 <= k < |cases| ==> !IsCaseOf(cases[k], request)
  {
    if cases == [] then -1
    else
      var last := cases[|cases| - 1];
      if last.userId == request.userId && last.requestId == request.requestId && last.clientId == request.clientId
      then |cases| - 1
      else CaseIndex(cases[..|cases| - 1], request)
  }

  /** The idempotency lookup: request, then its result, then its review case if there is one. */
  function FindByPair(db: Db, clientId: nat, externalId: string): Option<Stored> {
    var i := PairIndex(db.requests, clientId, externalId);
    if i < 0 then None
    else
      var j := ResultIndex(db.results, db.requests[i].userId, db.requests[i].requestId);
      if j < 0 then None
      else
        var k := CaseIndex(db.cases, db.requests[i]);
        Some(Stored(db.requests[i], db.results[j], if k < 0 then None else Some(db.cases[k])))
  }

  // ---------- Transactions ----------

  /** Request, result and (for a review decision) pending case, inserted together or not at all. */
  function Inserted(db: Db, request: Request, decision: Decision): Db {
    db.(requests := db.requests + [request],
        results := db.results + [ResultRow(request.requestId, request.userId, request.clientId, decision)],
        cases := if decision == Review
                 then db.cases + [ReviewCase(|db.cases| + 1, request.requestId, request.userId, request.clientId,
                                             Pending, None, None, "", None)]
                 else db.cases)
  }

  function SaveCheck(db: Db, request: Request, decision: Decision): Result<Db, SaveError> {
    if KeyTaken(db.requests, request.key) || IdTaken(db.requests, request.requestId)
    then Err(DuplicateKey)
    else Ok(Inserted(db, request, decision))
  }

  function FinalizedCase(c: ReviewCase, reviewer: nat, status: ReviewStatus, decision: Decision, notes: string, at: int)
    : ReviewCase
  {
    c.(status := status, reviewerId := Some(reviewer), finalDecision := Some(decision), notes := notes,
       reviewedAt := Some(at))
  }

  /** The same case, with who decided what, why and when. */
  predicate DecidedBy(
    after: ReviewCase, before: ReviewCase, reviewer: nat, status: ReviewStatus, decision: Decision, notes: string, at: int)
  {
    && after.id == before.id && after.requestId == before.requestId
    && after.userId == before.userId && after.clientId == before.clientId
    && after.status == status && after.reviewerId == Some(reviewer) && after.finalDecision == Some(decision)
    && after.notes == notes && after.reviewedAt == Some(at)
  }

  /** Case ids count up from 1. */
  function FinalizeCase(db: Db, id: nat, reviewer: nat, status: ReviewStatus, decision: Decision, notes: string, at: int)
    : Result<Db, FinalizeError>
  {
    if id == 0 || id > |db.cases| then Err(CaseNotFound)
    else if db.cases[id - 1].status != Pending then Err(AlreadyFinalized)
    else Ok(db.(cases := db.cases[id - 1 := FinalizedCase(db.cases[id - 1], reviewer, status, decision, notes, at)]))
  }

  // ---------- Statistics ----------

  function ResultsDecided(results: seq<ResultRow>, decision: Decision): nat {
    if results == [] then 0
    else ResultsDecided(results[..|results| - 1], decision)
         + if results[|results| - 1].decision == decision then 1 else 0
  }

  function CasesIn(cases: seq<ReviewCase>, status: ReviewStatus): nat {
    if cases == [] then 0
    else CasesIn(cases[..|cases| - 1], status) + if cases[|cases| - 1].status == status then 1 else 0
  }

  function CasesReviewed(cases: seq<ReviewCase>): nat {
    if cases == [] then 0
    else CasesReviewed(cases[..|cases| - 1]) + if cases[|cases| - 1].status != Pending then 1 else 0
  }

  function CasesFinally(cases: seq<ReviewCase>, decision: Decision): nat {
    if cases == [] then 0
    else
      var last := cases[|cases| - 1];
      CasesFinally(cases[..|cases| - 1], decision)
      + if last.status != Pending && last.finalDecision == Some(decision) then 1 else 0
  }

  function DeliveriesIn(rows: Rows, status: Status): set<nat> {
    set id | id in rows && rows[id].status == status
  }

  datatype Stats = Stats(
    totalModerated: nat, allowed: nat, blocked: nat, pendingReview: nat, reviewed: nat, mistakes: nat,
    mistakeRate: real, webhookTotal: nat, webhookSucceeded: nat, webhookFailed: nat, webhookRetrying: nat)

  /** The aggregate counts of one snapshot, policy and human decisions added together. */
  function StatsOf(db: Db): Stats {
    var reviewed := CasesReviewed(db.cases);
    var mistakes := CasesIn(db.cases, Mistake);
    Stats(|db.results|,
          ResultsDecided(db.results, Allow) + CasesFinally(db.cases, Allow),
          ResultsDecided(db.results, Block) + CasesFinally(db.cases, Block),
          CasesIn(db.cases, Pending), reviewed, mistakes,
          if reviewed > 0 then mistakes as real / reviewed as real else 0.0,
          |db.deliveries|, |DeliveriesIn(db.deliveries, Succeeded)|, |DeliveriesIn(db.deliveries, Failed)|,
          |DeliveriesIn(db.deliveries, Retrying)|)
  }

  class Store {
    var requests: seq<Request>
    var results: seq<ResultRow>
    var cases: seq<ReviewCase>
    var deliveries: Rows

    function Tables(): Db
      reads this
    {
      Db(requests, results, cases, deliveries)
    }

    constructor ()
      ensures Tables() == EMPTY_DB
    {
      requests, results, cases, deliveries := [], [], [], map[];
    }

    /** Creates the rows in order and rolls back when a unique index objects. */
    method Save(request: Request, decision: Decision) returns (error: Option<SaveError>)
      modifies this
      ensures match SaveCheck(old(Tables()), request, decision)
              case Err(e) => error == Some(e) && Tables() == old(Tables())
              case Ok(db) => error == None && Tables() == db
    {
      var i := 0;
      while i < |requests|
        invariant 0 <= i <= |requests|
        invariant !KeyTaken(requests[..i], request.key) && !IdTaken(requests[..i], request.requestId)
      {
        if (request.key.Some? && requests[i].key == request.key) || requests[i].requestId == request.requestId {
          return Some(DuplicateKey);
        }
        assert requests[..i + 1] == requests[..i] + [requests[i]];
        i := i + 1;
      }
      assert requests[..i] == requests;
      requests := requests + [request];
      results := results + [ResultRow(request.requestId, request.userId, request.clientId, decision)];
      if decision == Review {
        cases := cases + [ReviewCase(|cases| + 1, request.requestId, request.userId, request.clientId,
                                     Pending, None, None, "", None)];
      }
      return None;
    }

    /** The three queries of the lookup scan from the newest row. */
    method FindRequest(clientId: nat, externalId: string) returns (i: int)
      ensures i == PairIndex(requests, clientId, externalId)
    {
      i := |requests| - 1;
      assert requests[..i + 1] == requests;
      while i >= 0 && !(requests[i].clientId == Some(clientId) && requests[i].externalId == externalId)
        invariant -1 <= i < |requests|
        invariant PairIndex(requests, clientId, externalId) == PairIndex(requests[..i + 1], clientId, externalId)
      {
        assert requests[..i + 1][..i] == requests[..i];
        i := i - 1;
      }
    }

    method FindResult(userId: nat, requestId: string) returns (i: int)
      ensures i == ResultIndex(results, userId, requestId)
    {
      i := |results| - 1;
      assert results[..i + 1] == results;
      while i >= 0 && !(results[i].userId == userId && results[i].requestId == requestId)
        invariant -1 <= i < |results|
        invariant ResultIndex(results, userId, requestId) == ResultIndex(results[..i + 1], userId, requestId)
      {
        assert results[..i + 1][..i] == results[..i];
        i := i - 1;
      }
    }

    method FindCase(request: Request) returns (i: int)
      ensures i == CaseIndex(cases, request)
    {
      i := |cases| - 1;
      assert cases[..i + 1] == cases;
      while i >= 0 && !(cases[i].userId == request.userId && cases[i].requestId == request.requestId
                        && cases[i].clientId == request.clientId)
        invariant -1 <= i < |cases|
        invariant CaseIndex(cases, request) == CaseIndex(cases[..i + 1], request)
      {
        assert cases[..i + 1][..i] == cases[..i];
        i := i - 1;
      }
    }

    method Find(clientId: nat, externalId: string) returns (stored: Option<Stored>)
      ensures stored == FindByPair(Tables(), clientId, externalId)
    {
      var i := FindRequest(clientId, externalId);
      if i < 0 {
        return None;
      }
      var request := requests[i];
      var j := FindResult(request.userId, request.requestId);
      if j < 0 {
        return None;
      }
      var k := FindCase(request);
      return Some(Stored(request, results[j], if k < 0 then None else Some(cases[k])));
    }

    method Finalize(id: nat, reviewer: nat, status: ReviewStatus, decision: Decision, notes: string, at: int)
      returns (error: Option<FinalizeError>)
      modifies this
      ensures match FinalizeCase(old(Tables()), id, reviewer, status, decision, notes, at)
              case Err(e) => error == Some(e) && Tables() == old(Tables())
              case Ok(db) => error == None && Tables() == db
      ensures error == Some(CaseNotFound) <==> !(0 < id <= |old(cases)|)
      ensures error == Some(AlreadyFinalized) <==> 0 < id <= |old(cases)| && old(cases)[id - 1].status != Pending
      ensures error == None ==>
                && |cases| == |old(cases)| && DecidedBy(cases[id - 1], old(cases)[id - 1], reviewer, status, decision, notes, at)
                && forall k :: 0 <= k < |cases| && k != id - 1 ==> cases[k] == old(cases)[k]
    {
      if id == 0 || id > |cases| {
        return Some(CaseNotFound);
      }
      var reviewCase := cases[id - 1];
      if reviewCase.status != Pending {
        return Some(AlreadyFinalized);
      }
      reviewCase := reviewCase.(status := status);
      reviewCase := reviewCase.(reviewerId := Some(reviewer));
      reviewCase := reviewCase.(finalDecision := Some(decision));
      reviewCase := reviewCase.(notes := notes);
      reviewCase := reviewCase.(reviewedAt := Some(at));
      cases := cases[id - 1 := reviewCase];
      return None;
    }

    /** The database picks any unused id. */
    method SaveDelivery(delivery: Delivery) returns (row: nat)
      modifies this
      ensures row !in old(deliveries)
      ensures Tables() == old(Tables()).(deliveries := old(deliveries)[row := delivery])
    {
      row := |deliveries|;
      var taken := deliveries.Keys;
      while row in deliveries
        invariant taken <= deliveries.Keys
        invariant forall k :: k in deliveries && k >= row ==> k in taken
        decreases taken
      {
        taken := taken - {row};
        row := row + 1;
      }
      deliveries := deliveries[row := delivery];
    }

    /** The count queries, one pass over each table of the snapshot. */
    method GetStats() returns (stats: Stats)
      ensures stats == StatsOf(Tables())
    {
      var allowed, blocked := 0, 0;
      var i := 0;
      while i < |results|
        invariant 0 <= i <= |results|
        invariant allowed == ResultsDecided(results[..i], Allow) && blocked == ResultsDecided(results[..i], Block)
      {
        assert results[..i + 1][..i] == results[..i];
        match results[i].decision {
          case Allow => allowed := allowed + 1;
          case Block => blocked := blocked + 1;
          case Review =>
        }
        i := i + 1;
      }
      assert results[..i] == results;
      var pending, reviewed, mistakes, finalAllowed, finalBlocked := 0, 0, 0, 0, 0;
      i := 0;
      while i < |cases|
        invariant 0 <= i <= |cases|
        invariant pending == CasesIn(cases[..i], Pending) && mistakes == CasesIn(cases[..i], Mistake)
        invariant reviewed == CasesReviewed(cases[..i])
        invariant finalAllowed == CasesFinally(cases[..i], Allow) && finalBlocked == CasesFinally(cases[..i], Block)
      {
        assert cases[..i + 1][..i] == cases[..i];
        var c := cases[i];
        if c.status == Pending {
          pending := pending + 1;
        } else {
          reviewed := reviewed + 1;
          if c.status == Mistake {
            mistakes := mistakes + 1;
          }
          if c.finalDecision == Some(Allow) {
            finalAllowed := finalAllowed + 1;
          } else if c.finalDecision == Some(Block) {
            finalBlocked := finalBlocked + 1;
          }
        }
        i := i + 1;
      }
      assert cases[..i] == cases;
      var mistakeRate := 0.0;
      if reviewed > 0 {
        mistakeRate := mistakes as real / reviewed as real;
      }
      stats := Stats(|results|, allowed + finalAllowed, blocked + finalBlocked, pending, reviewed, mistakes, mistakeRate,
                     |deliveries|, |DeliveriesIn(deliveries, Succeeded)|, |DeliveriesIn(deliveries, Failed)|,
                     |DeliveriesIn(deliveries, Retrying)|);
    }
  }
}
