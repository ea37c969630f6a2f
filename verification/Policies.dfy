/** Moderation policies: validation, the registry of versions and its stable listing. */
module Policies {
  import opened Results
  import opened Text

  /** A threshold as configured; NaN and the infinities are the values no comparison below ever sees. */
  datatype Score = Number(value: real) | NotFinite

  predicate ValidScore(score: Score) {
    score.Number? && 0.0 <= score.value <= 1.0
  }

  datatype Policy = Policy(version: string, review: Score, block: Score)

  datatype Error =
    | VersionRequired
    | ReviewThresholdRange
    | BlockThresholdRange
    | ThresholdsOutOfOrder
    | DuplicateVersion(version: string)
    | NotConfigured(version: string)

  function Fault(p: Policy): Option<Error> {
    if Trim(p.version) == "" then Some(VersionRequired)
    else if !ValidScore(p.review) then Some(ReviewThresholdRange)
    else if !ValidScore(p.block) then Some(BlockThresholdRange)
    else if p.review.value >= p.block.value then Some(ThresholdsOutOfOrder)
    else None
  }

  /** A policy is valid exactly when its version is not blank and its thresholds are numbers between 0 and 1, the one for
      review below the one for blocking; the faults are looked for in this order. */
  lemma {:induction false} ValidExactlyWhen(p: Policy)
    ensures Fault(p) == None <==>
              && !AllSpace(p.version, IsSpace) && p.review.Number? && p.block.Number?
              && 0.0 <= p.review.value < p.block.value <= 1.0
    ensures var inRange := (score: Score) => score.Number? && 0.0 <= score.value && score.value <= 1.0;
            && (Fault(p) == Some(VersionRequired) <==> AllSpace(p.version, IsSpace))
            && (Fault(p) == Some(ReviewThresholdRange) <==> !AllSpace(p.version, IsSpace) && !inRange(p.review))
            && (Fault(p) == Some(BlockThresholdRange) <==>
                  !AllSpace(p.version, IsSpace) && inRange(p.review) && !inRange(p.block))
            && (Fault(p) == Some(ThresholdsOutOfOrder) <==>
                  !AllSpace(p.version, IsSpace) && inRange(p.review) && inRange(p.block) && p.review.value >= p.block.value)
  {
    BlankIsAllSpace(p.version, IsSpace);
  }

  /** A policy that NewPolicy returns is valid and carries a version without surrounding white space. */
  function NewPolicy(version: string, review: Score, block: Score): (r: Result<Policy, Error>)
    ensures r.Ok? <==> Fault(Policy(version, review, block)) == None
    ensures r.Ok? ==> Fault(r.value) == None && Trimmed(r.value.version) && r.value.version != ""
    ensures r.Ok? ==> r.value.version == Trim(version) && r.value.review == review && r.value.block == block
    ensures r.Err? ==> Fault(Policy(version, review, block)) == Some(r.error)
  {
    StripFixesStripped(version, IsSpace);
    StripFixesStripped(Trim(version), IsSpace);
    var policy := Policy(Trim(version), review, block);
    var fault := Fault(policy);
    if fault.Some? then Err(fault.value) else Ok(policy)
  }

  datatype PolicySet = PolicySet(defaultPolicy: Policy, policies: map<string, Policy>)

  /** The zero value: a registry nothing was put into. */
  const ZERO := PolicySet(Policy("", Number(0.0), Number(0.0)), map[])

  ghost predicate Built(ps: PolicySet) {
    && ps.defaultPolicy.version in ps.policies
    && ps.policies[ps.defaultPolicy.version] == ps.defaultPolicy
    && (forall v :: v in ps.policies ==> ps.policies[v].version == v && Fault(ps.policies[v]) == None)
  }

  // ---------- Building the registry ----------

  predicate Repeats(all: seq<Policy>, i: nat)
    requires i < |all|
  {
    exists j :: 0 <= j < i && all[j].version == all[i].version
  }

  predicate Sound(all: seq<Policy>, i: nat)
    requires i < |all|
  {
    Fault(all[i]) == None && !Repeats(all, i)
  }

  /** Policy i is the first that is invalid or repeats a version, and this is the error it causes. */
  predicate FirstFault(all: seq<Policy>, i: nat, error: Error)
    requires i < |all|
  {
    && (forall j :: 0 <= j < i ==> Sound(all, j))
    && !Sound(all, i)
    && error == if Fault(all[i]).Some? then Fault(all[i]).value else DuplicateVersion(all[i].version)
  }

  /** The map holds exactly the first n policies, each under its version. */
  predicate Holds(policies: map<string, Policy>, all: seq<Policy>, n: nat)
    requires n <= |all|
  {
    && (forall i :: 0 <= i < n ==> all[i].version in policies && policies[all[i].version] == all[i])
    && (forall v :: v in policies ==> exists i :: 0 <= i < n && all[i].version == v)
  }

  ghost predicate DistinctVersions(all: seq<Policy>) {
    forall i, j :: 0 <= i < j < |all| ==> all[i].version != all[j].version
  }

  ghost predicate AllValid(all: seq<Policy>) {
    forall i :: 0 <= i < |all| ==> Fault(all[i]) == None
  }

  ghost predicate SoundUpTo(all: seq<Policy>, n: nat)
    requires n <= |all|
  {
    forall j :: 0 <= j < n ==> Sound(all, j)
  }

  lemma {:induction false} HoldsFirst(all: seq<Policy>, after: map<string, Policy>)
    requires all != [] && Fault(all[0]) == None && after == map[all[0].version := all[0]]
    ensures Holds(after, all, 1) && SoundUpTo(all, 1)
  {
    assert all[0].version in after;
  }

  lemma {:induction false} HoldsOneMore(policies: map<string, Policy>, all: seq<Policy>, n: nat, after: map<string, Policy>)
    requires n < |all| && Holds(policies, all, n) && SoundUpTo(all, n)
    requires all[n].version !in policies && Fault(all[n]) == None && after == policies[all[n].version := all[n]]
    ensures Holds(after, all, n + 1) && SoundUpTo(all, n + 1)
  {
    forall v | v in after
      ensures exists i :: 0 <= i < n + 1 && all[i].version == v
    {
      if v != all[n].version {
        var i :| 0 <= i < n && all[i].version == v;
        assert 0 <= i < n + 1;
      }
    }
    assert forall i :: 0 <= i < n ==> all[i].version in policies;
  }

  lemma {:induction false} SoundPoliciesAreBuilt(ps: PolicySet, all: seq<Policy>)
    requires all != [] && ps.defaultPolicy == all[0] && Holds(ps.policies, all, |all|)
    requires SoundUpTo(all, |all|)
    ensures IsRegistration(all, Ok(ps))
  {
    forall i, j | 0 <= i < j < |all|
      ensures all[i].version != all[j].version
    {
      assert Sound(all, j);
    }
    forall v | v in ps.policies
      ensures ps.policies[v].version == v && Fault(ps.policies[v]) == None
    {
      var i :| 0 <= i < |all| && all[i].version == v;
      assert Sound(all, i);
    }
  }

  /** The registry is built exactly when every policy is valid and no version occurs twice; it then holds each policy
      under its version and nothing else, and otherwise the error is the first fault in order. */
  ghost predicate IsRegistration(all: seq<Policy>, r: Result<PolicySet, Error>) {
    && (r.Ok? <==> DistinctVersions(all) && AllValid(all))
    && (r.Ok? ==> all != [] && r.value.defaultPolicy == all[0] && Holds(r.value.policies, all, |all|) && Built(r.value))
    && (r.Err? ==> exists i :: 0 <= i < |all| && FirstFault(all, i, r.error))
  }

  lemma {:induction false} FaultIsRefused(all: seq<Policy>, i: nat, error: Error)
    requires i < |all| && SoundUpTo(all, i) && !Sound(all, i)
    requires error == if Fault(all[i]).Some? then Fault(all[i]).value else DuplicateVersion(all[i].version)
    ensures IsRegistration(all, Err(error))
  {
    assert FirstFault(all, i, error);
  }

  method NewPolicySet(defaultPolicy: Policy, policies: seq<Policy>) returns (r: Result<PolicySet, Error>)
    ensures IsRegistration([defaultPolicy] + policies, r)
  {
    ghost var all := [defaultPolicy] + policies;
    var fault := Fault(defaultPolicy);
    if fault.Some? {
      FaultIsRefused(all, 0, fault.value);
      return Err(fault.value);
    }
    var registered := map[defaultPolicy.version := defaultPolicy];
    HoldsFirst(all, registered);
    var i := 0;
    while i < |policies|
      invariant 0 <= i <= |policies|
      invariant Holds(registered, all, i + 1)
      invariant SoundUpTo(all, i + 1)
    {
      assert policies[i] == all[i + 1];
      fault := Fault(policies[i]);
      if fault.Some? {
        FaultIsRefused(all, i + 1, fault.value);
        return Err(fault.value);
      }
      if policies[i].version in registered {
        FaultIsRefused(all, i + 1, DuplicateVersion(policies[i].version));
        return Err(DuplicateVersion(policies[i].version));
      }
      HoldsOneMore(registered, all, i + 1, registered[policies[i].version := policies[i]]);
      registered := registered[policies[i].version := policies[i]];
      i := i + 1;
    }
    SoundPoliciesAreBuilt(PolicySet(defaultPolicy, registered), all);
    return Ok(PolicySet(defaultPolicy, registered));
  }

  // ---------- Listing it ----------

  datatype PolicyConfig = PolicyConfig(version: string, review: Score, block: Score, isDefault: bool)

  function Config(p: Policy, isDefault: bool): PolicyConfig {
    PolicyConfig(p.version, p.review, p.block, isDefault)
  }

  /** Go's order on strings. UTF-8 keeps the order of code points, so comparing characters compares bytes. */
  predicate Before(a: string, b: string) {
    b != [] && (a == [] || a[0] < b[0] || (a[0] == b[0] && Before(a[1..], b[1..])))
  }

  lemma {:induction false} BeforeTransitive(a: string, b: string, c: string)
    requires Before(a, b) && Before(b, c)
    ensures Before(a, c)
  {
    if a != [] && a[0] == b[0] == c[0] {
      BeforeTransitive(a[1..], b[1..], c[1..]);
    }
  }

  lemma {:induction false} BeforeTotal(a: string, b: string)
    ensures !(Before(a, b) && Before(b, a))
    ensures Before(a, b) || Before(b, a) <==> a != b
  {
    if a != [] && b != [] && a[0] == b[0] {
      BeforeTotal(a[1..], b[1..]);
      assert a == [a[0]] + a[1..] && b == [b[0]] + b[1..];
    }
  }

  /** The comparison given to sort.Slice. */
  predicate Less(a: PolicyConfig, b: PolicyConfig) {
    if a.isDefault != b.isDefault then a.isDefault else Before(a.version, b.version)
  }

  lemma LessTransitive(a: PolicyConfig, b: PolicyConfig, c: PolicyConfig)
    requires Less(a, b) && Less(b, c)
    ensures Less(a, c)
  {
    if a.isDefault == b.isDefault == c.isDefault {
      BeforeTransitive(a.version, b.version, c.version);
    }
  }

  ghost predicate Ascending(s: seq<PolicyConfig>) {
    forall i, j :: 0 <= i < j < |s| ==> Less(s[i], s[j])
  }

  ghost predicate SameElements(a: seq<PolicyConfig>, b: seq<PolicyConfig>) {
    forall c :: c in a <==> c in b
  }

  lemma FirstIsIn(s: seq<PolicyConfig>)
    ensures s == [] || s[0] in s
  {
  }

  /** Ascending lists with the same elements are the same list. */
  lemma {:induction false} AscendingIsUnique(a: seq<PolicyConfig>, b: seq<PolicyConfig>)
    requires Ascending(a) && Ascending(b) && SameElements(a, b)
    ensures a == b
  {
    if a == [] {
      FirstIsIn(b);
    } else {
      assert a[0] in b;
      AscendingStartsAlike(a, b);
      assert a == [a[0]] + a[1..] && b == [b[0]] + b[1..];
      AscendingNotIn(a);
      AscendingNotIn(b);
      AscendingIsUnique(a[1..], b[1..]);
    }
  }

  lemma AscendingNotIn(a: seq<PolicyConfig>)
    requires Ascending(a) && a != []
    ensures forall c :: c in a[1..] <==> c in a && c != a[0]
  {
    assert a == [a[0]] + a[1..];
    forall i | 1 <= i < |a|
      ensures a[i] != a[0]
    {
      BeforeTotal(a[0].version, a[i].version);
    }
  }

  lemma AscendingStartsAlike(a: seq<PolicyConfig>, b: seq<PolicyConfig>)
    requires Ascending(a) && Ascending(b) && SameElements(a, b) && a != [] && b != []
    ensures a[0] == b[0]
  {
    assert a[0] in b && b[0] in a;
    var i :| 0 <= i < |b| && b[i] == a[0];
    var j :| 0 <= j < |a| && a[j] == b[0];
    BeforeTotal(a[0].version, b[0].version);
  }

  /** sort.Slice, by inserting one element after the other. */
  function Insert(c: PolicyConfig, s: seq<PolicyConfig>): seq<PolicyConfig> {
    if s == [] || Less(c, s[0]) then [c] + s else [s[0]] + Insert(c, s[1..])
  }

  function Sort(s: seq<PolicyConfig>): seq<PolicyConfig> {
    if s == [] then [] else Insert(s[0], Sort(s[1..]))
  }

  /** Any two different elements compare, one way or the other. */
  ghost predicate Comparable(s: seq<PolicyConfig>) {
    forall i, j :: 0 <= i < j < |s| ==> Less(s[i], s[j]) || Less(s[j], s[i])
  }

  lemma {:induction false} InsertHolds(c: PolicyConfig, s: seq<PolicyConfig>)
    ensures forall x :: x in Insert(c, s) <==> x == c || x in s
  {
    if s != [] && !Less(c, s[0]) {
      InsertHolds(c, s[1..]);
      assert s == [s[0]] + s[1..];
    }
  }

  lemma {:induction false} InsertKeepsAscending(c: PolicyConfig, s: seq<PolicyConfig>)
    requires Ascending(s) && forall x :: x in s ==> Less(c, x) || Less(x, c)
    ensures Ascending(Insert(c, s))
  {
    if s != [] {
      if Less(c, s[0]) {
        forall j | 1 <= j < |s|
          ensures Less(c, s[j])
        {
          LessTransitive(c, s[0], s[j]);
        }
      } else {
        var rest := Insert(c, s[1..]);
        InsertKeepsAscending(c, s[1..]);
        InsertHolds(c, s[1..]);
        forall j | 0 <= j < |rest|
          ensures Less(s[0], rest[j])
        {
          assert rest[j] in rest;
        }
      }
    }
  }

  lemma {:induction false} SortSorts(s: seq<PolicyConfig>)
    requires Comparable(s)
    ensures Ascending(Sort(s)) && SameElements(Sort(s), s)
  {
    if s != [] {
      SortSorts(s[1..]);
      InsertHolds(s[0], Sort(s[1..]));
      assert s == [s[0]] + s[1..];
      forall x | x in Sort(s[1..])
        ensures Less(s[0], x) || Less(x, s[0])
      {
        assert x in s[1..];
      }
      InsertKeepsAscending(s[0], Sort(s[1..]));
    }
  }

  /** The policy with its own thresholds. */
  predicate Lists(c: PolicyConfig, p: Policy, isDefault: bool) {
    c.version == p.version && c.review == p.review && c.block == p.block && c.isDefault == isDefault
  }

  /** What an operator should see: the default first, then the other versions ascending, each exactly once. */
  ghost predicate IsListing(ps: PolicySet, output: seq<PolicyConfig>) {
    if Trim(ps.defaultPolicy.version) == "" then output == []
    else
      && output != [] && Lists(output[0], ps.defaultPolicy, true)
      && (forall i :: 1 <= i < |output| ==> !output[i].isDefault)
      && (forall i, j :: 1 <= i < j < |output| ==> Before(output[i].version, output[j].version))
      && (forall i, j :: 0 <= i < j < |output| ==> output[i].version != output[j].version)
      && (forall i :: 0 <= i < |output| ==>
            output[i].version in ps.policies && Lists(output[i], ps.policies[output[i].version], i == 0))
      && (forall v :: v in ps.policies ==> exists i :: 0 <= i < |output| && output[i].version == v)
  }

  /** A registered policy as listed, once only the versions in left are still to come. */
  predicate Walked(ps: PolicySet, left: set<string>, c: PolicyConfig) {
    && c.version in ps.policies
    && c == Config(ps.policies[c.version], c.version == ps.defaultPolicy.version)
    && (c.isDefault || c.version !in left)
  }

  ghost predicate Collected(ps: PolicySet, left: set<string>, output: seq<PolicyConfig>) {
    && (forall c :: c in output <==> Walked(ps, left, c))
    && Comparable(output)
  }

  lemma {:induction false} CollectedOneMore(
    ps: PolicySet, left: set<string>, version: string, output: seq<PolicyConfig>, config: PolicyConfig)
    requires Built(ps) && Collected(ps, left, output) && version in left && left <= ps.policies.Keys
    requires config == Config(ps.policies[version], false) && version != ps.defaultPolicy.version
    ensures Collected(ps, left - {version}, output + [config])
  {
    forall i | 0 <= i < |output|
      ensures Less(output[i], config) || Less(config, output[i])
    {
      assert output[i] in output;
      assert Walked(ps, left, output[i]);
      BeforeTotal(output[i].version, version);
    }
    forall c
      ensures c in output + [config] <==> Walked(ps, left - {version}, c)
    {
      assert c in output <==> Walked(ps, left, c);
    }
  }

  /** List, whatever order the map is walked in. */
  method List(ps: PolicySet) returns (output: seq<PolicyConfig>)
    requires Built(ps) || ps == ZERO
    ensures IsListing(ps, output)
  {
    output := [];
    var seen := {};
    if Trim(ps.defaultPolicy.version) != "" {
      output := output + [Config(ps.defaultPolicy, true)];
      seen := seen + {ps.defaultPolicy.version};
    }
    var left := ps.policies.Keys;
    while left != {}
      invariant left <= ps.policies.Keys
      invariant Collected(ps, left, output)
      decreases |left|
    {
      var version :| version in left;
      if version !in seen {
        var config := Config(ps.policies[version], false);
        CollectedOneMore(ps, left, version, output, config);
        output := output + [config];
      }
      left := left - {version};
    }
    SortSorts(output);
    output := Sort(output);
    ListingOf(ps, output);
  }

  lemma {:induction false} ListingOf(ps: PolicySet, output: seq<PolicyConfig>)
    requires Built(ps) || ps == ZERO
    requires Ascending(output) && forall c :: c in output <==> Walked(ps, {}, c)
    ensures IsListing(ps, output)
  {
    if Built(ps) {
      var first := Config(ps.defaultPolicy, true);
      assert Walked(ps, {}, first);
      var k :| 0 <= k < |output| && output[k] == first;
      forall i | 0 <= i < |output|
        ensures Walked(ps, {}, output[i]) && (output[i].isDefault <==> i == 0)
        ensures Lists(output[i], ps.policies[output[i].version], i == 0)
      {
        assert output[i] in output && output[0] in output;
        BeforeTotal(first.version, first.version);
      }
      forall i, j | 0 <= i < j < |output|
        ensures output[i].version != output[j].version
      {
        BeforeTotal(output[i].version, output[j].version);
      }
      forall v | v in ps.policies
        ensures exists i :: 0 <= i < |output| && output[i].version == v
      {
        var config := Config(ps.policies[v], v == ps.defaultPolicy.version);
        assert Walked(ps, {}, config);
        var i :| 0 <= i < |output| && output[i] == config;
        assert output[i].version == v;
      }
    } else {
      FirstIsIn(output);
    }
  }

  /** The listing of a registry is one sequence, however its map is walked. */
  lemma ListingIsUnique(ps: PolicySet, a: seq<PolicyConfig>, b: seq<PolicyConfig>)
    requires Built(ps) || ps == ZERO
    requires IsListing(ps, a) && IsListing(ps, b)
    ensures a == b
  {
    if Built(ps) {
      ListingAscends(ps, a);
      ListingAscends(ps, b);
      AscendingIsUnique(a, b);
    }
  }

  lemma {:induction false} ListingAscends(ps: PolicySet, a: seq<PolicyConfig>)
    requires Built(ps) && IsListing(ps, a)
    ensures Ascending(a) && forall c :: c in a <==> Walked(ps, {}, c)
  {
    forall i | 0 <= i < |a|
      ensures Walked(ps, {}, a[i])
    {
      assert i > 0 ==> a[0].version != a[i].version;
    }
  }

  // ---------- Resolving what is listed ----------

  function PolicyForVersion(ps: PolicySet, version: string): Result<Policy, Error> {
    var trimmed := Trim(version);
    if trimmed == "" then Ok(ps.defaultPolicy)
    else if trimmed !in ps.policies then Err(NotConfigured(trimmed))
    else Ok(ps.policies[trimmed])
  }

  /** A listed version resolves to the policy it was listed for exactly when it carries no surrounding white space. */
  lemma ListedVersionResolves(ps: PolicySet, output: seq<PolicyConfig>, i: nat)
    requires Built(ps) && IsListing(ps, output) && i < |output|
    ensures var r := PolicyForVersion(ps, output[i].version);
            (r.Ok? && Lists(output[i], r.value, i == 0)) <==> Trimmed(output[i].version)
  {
    StripFixesStripped(output[i].version, IsSpace);
  }

  /** A request finds a policy exactly when, trimmed, it is empty or a listed version, and finds the one listed. */
  lemma {:induction false} LookupMatchesListing(ps: PolicySet, output: seq<PolicyConfig>, request: string)
    requires Built(ps) && IsListing(ps, output)
    ensures var r, wanted := PolicyForVersion(ps, request), Trim(request);
            && (r.Ok? <==> wanted == "" || exists i :: 0 <= i < |output| && output[i].version == wanted)
            && (r.Ok? ==> exists i :: 0 <= i < |output| && Lists(output[i], r.value, i == 0)
                                      && (if wanted == "" then i == 0 else output[i].version == wanted))
  {
    var r, wanted := PolicyForVersion(ps, request), Trim(request);
    if r.Ok? {
      var version := if wanted == "" then ps.defaultPolicy.version else wanted;
      assert version in ps.policies;
      var i :| 0 <= i < |output| && output[i].version == version;
      assert Lists(output[i], r.value, i == 0);
      assert output[0].version == ps.defaultPolicy.version;
    }
  }
}
