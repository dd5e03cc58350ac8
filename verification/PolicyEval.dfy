/** The policy evaluator: sort by priority, take the first matching rule, look for a conflicting
    tie. It is proved equal to a meaning that mentions no order at all. */
module PolicyEval {
  import opened Base
  import opened GrantTtl

  datatype Effect = Deny | RequireStepUp | AllowWithoutStepUp | NotProtected | OtherEffect(name: string)

  datatype Principal = Principal(kind: string, user: Option<string>)

  datatype Resource = Resource(node: string, service: string, port: int, mode: string)

  datatype SubjectSelector =
    SubjectSelector(users: seq<string>, groups: seq<string>, tags: seq<string>, kinds: seq<string>)

  datatype ResourceSelector =
    ResourceSelector(ids: seq<string>, ports: seq<int>, services: seq<string>, modes: seq<string>)

  datatype Rule = Rule(id: string, priority: int, effect: Effect, subjects: seq<SubjectSelector>,
                       resources: seq<ResourceSelector>, protocols: seq<string>, scopes: seq<Scope>)

  datatype Query = Query(principal: Principal, resource: Resource, protocol: string, scope: Scope)

  datatype Bundle = Bundle(version: int, epoch: int, expires: Time, rules: seq<Rule>)

  datatype Result = Result(decision: Effect, matched: Option<string>, stepUp: bool, version: int, epoch: int)

  // ---- matching: OR within a dimension, AND across dimensions ----

  predicate SubjectMatches(sel: SubjectSelector, p: Principal) {
    && (|sel.kinds| > 0 ==> p.kind in sel.kinds)
    && (if |sel.users| > 0 && p.user.Some? then p.user.value in sel.users
        else (|sel.users| == 0 && |sel.groups| == 0 && |sel.tags| == 0) || |sel.kinds| > 0)
  }

  /** Only the first non-empty dimension of a resource selector counts. */
  predicate ResourceMatches(sel: ResourceSelector, r: Resource) {
    if |sel.ids| > 0 then r.service in sel.ids || r.node in sel.ids
    else if |sel.ports| > 0 then r.port in sel.ports
    else if |sel.services| > 0 then r.service in sel.services
    else |sel.modes| > 0 ==> r.mode in sel.modes
  }

  predicate RuleMatches(rule: Rule, q: Query) {
    && (|rule.subjects| > 0 ==> exists i :: 0 <= i < |rule.subjects| && SubjectMatches(rule.subjects[i], q.principal))
    && (|rule.resources| > 0 ==>
          exists i :: 0 <= i < |rule.resources| && ResourceMatches(rule.resources[i], q.resource))
    && (|rule.protocols| > 0 ==> q.protocol in rule.protocols)
    && (|rule.scopes| > 0 ==> q.scope in rule.scopes)
  }

  /** Across dimensions a rule asks for all of them: it matches exactly when it would match on its
      subjects alone, on its resources alone, on its protocols alone and on its scopes alone. */
  lemma AndAcross(rule: Rule, q: Query)
    ensures RuleMatches(rule, q) <==>
              && RuleMatches(rule.(resources := [], protocols := [], scopes := []), q)
              && RuleMatches(rule.(subjects := [], protocols := [], scopes := []), q)
              && RuleMatches(rule.(subjects := [], resources := [], scopes := []), q)
              && RuleMatches(rule.(subjects := [], resources := [], protocols := []), q)
  {
  }

  /** A rule that says nothing about who and what matches every access. */
  lemma EmptyRuleMatches(rule: Rule, q: Query)
    requires rule.subjects == [] && rule.resources == [] && rule.protocols == [] && rule.scopes == []
    ensures RuleMatches(rule, q)
  {
  }

  /** A rule on one dimension only. */
  function Only(rule: Rule): Rule {
    rule.(subjects := [], resources := [], protocols := [], scopes := [])
  }

  /** Within a dimension a rule asks for one of the selectors: listing more is matching either. */
  lemma OrWithin(rule: Rule, q: Query, a: seq<SubjectSelector>, b: seq<SubjectSelector>,
                 c: seq<ResourceSelector>, d: seq<ResourceSelector>)
    requires a != [] && b != [] && c != [] && d != []
    ensures RuleMatches(Only(rule).(subjects := a + b), q) <==>
              RuleMatches(Only(rule).(subjects := a), q) || RuleMatches(Only(rule).(subjects := b), q)
    ensures RuleMatches(Only(rule).(resources := c + d), q) <==>
              RuleMatches(Only(rule).(resources := c), q) || RuleMatches(Only(rule).(resources := d), q)
  {
    assert forall i :: 0 <= i < |a| ==> (a + b)[i] == a[i];
    assert forall i :: 0 <= i < |b| ==> (a + b)[|a| + i] == b[i];
    assert forall i :: 0 <= i < |c| ==> (c + d)[i] == c[i];
    assert forall i :: 0 <= i < |d| ==> (c + d)[|c| + i] == d[i];
  }

  /** Single selectors, protocols and scopes. */
  lemma SingleMatches(rule: Rule, q: Query, s: SubjectSelector, r: ResourceSelector,
                      protocols: seq<string>, scopes: seq<Scope>)
    requires protocols != [] && scopes != []
    ensures RuleMatches(Only(rule).(subjects := [s]), q) <==> SubjectMatches(s, q.principal)
    ensures RuleMatches(Only(rule).(resources := [r]), q) <==> ResourceMatches(r, q.resource)
    ensures RuleMatches(Only(rule).(protocols := protocols), q) <==> q.protocol in protocols
    ensures RuleMatches(Only(rule).(scopes := scopes), q) <==> q.scope in scopes
  {
    assert [s][0] == s && [r][0] == r;
  }

  /** A subject selector by users: someone with an identity must be listed, whatever groups and tags say;
      without an identity, or without a user list, only an empty selector or one by kind matches. Groups
      and tags never make a match. */
  lemma SubjectLaws(users: seq<string>, groups: seq<string>, tags: seq<string>, kinds: seq<string>,
                    kind: string, user: string)
    ensures SubjectMatches(SubjectSelector([], [], [], []), Principal(kind, Some(user)))
    ensures SubjectMatches(SubjectSelector([], [], [], []), Principal(kind, None))
    ensures users != [] ==>
              (SubjectMatches(SubjectSelector(users, groups, tags, []), Principal(kind, Some(user))) <==> user in users)
    ensures users != [] ==> !SubjectMatches(SubjectSelector(users, groups, tags, []), Principal(kind, None))
    ensures groups != [] || tags != [] ==>
              !SubjectMatches(SubjectSelector([], groups, tags, []), Principal(kind, Some(user)))
    ensures kinds != [] ==>
              (SubjectMatches(SubjectSelector([], groups, tags, kinds), Principal(kind, Some(user))) <==> kind in kinds)
    ensures kinds != [] ==>
              (SubjectMatches(SubjectSelector(users, groups, tags, kinds), Principal(kind, None)) <==> kind in kinds)
    ensures kinds != [] && users != [] ==>
              (SubjectMatches(SubjectSelector(users, groups, tags, kinds), Principal(kind, Some(user))) <==>
                 kind in kinds && user in users)
  {
  }

  /** Only the first non-empty dimension of a resource selector counts, in the order ids, ports, services,
      modes; ids name a service or a protected node. */
  lemma ResourceLaws(sel: ResourceSelector, r: Resource)
    ensures sel.ids != [] ==> (ResourceMatches(sel, r) <==> r.service in sel.ids || r.node in sel.ids)
    ensures sel.ids == [] && sel.ports != [] ==> (ResourceMatches(sel, r) <==> r.port in sel.ports)
    ensures sel.ids == [] && sel.ports == [] && sel.services != [] ==>
              (ResourceMatches(sel, r) <==> r.service in sel.services)
    ensures sel.ids == [] && sel.ports == [] && sel.services == [] && sel.modes != [] ==>
              (ResourceMatches(sel, r) <==> r.mode in sel.modes)
    ensures sel.ids == [] && sel.ports == [] && sel.services == [] && sel.modes == [] ==> ResourceMatches(sel, r)
  {
  }

  // ---- the order-free meaning ----

  /** A matching rule of the highest matching priority. */
  ghost predicate Top(rules: seq<Rule>, q: Query, r: Rule) {
    && r in rules && RuleMatches(r, q)
    && forall o :: o in rules && RuleMatches(o, q) ==> o.priority <= r.priority
  }

  ghost predicate Agreed(rules: seq<Rule>, q: Query, effect: Effect) {
    forall r :: Top(rules, q, r) ==> r.effect == effect
  }

  /** The common effect of the matching rules at the highest matching priority, else DENY. */
  ghost function Meaning(rules: seq<Rule>, q: Query): Effect {
    if exists r :: Top(rules, q, r) then
      var r :| Top(rules, q, r);
      if Agreed(rules, q, r.effect) then r.effect else Deny
    else Deny
  }

  ghost predicate DistinctIds(rules: seq<Rule>) {
    forall a, b :: a in rules && b in rules && a.id == b.id ==> a == b
  }

  /** hasConflictingTie: another id, the same priority, another effect, also matching. */
  ghost predicate Conflicted(rules: seq<Rule>, q: Query, m: Rule) {
    exists r :: r in rules && r.id != m.id && r.priority == m.priority && r.effect != m.effect && RuleMatches(r, q)
  }

  // ---- what the sort leaves open ----

  ghost predicate Descending(rules: seq<Rule>) {
    forall i, j :: 0 <= i < j < |rules| ==> rules[i].priority >= rules[j].priority
  }

  /** An outcome of the unstable sort: any permutation in falling priority. */
  ghost predicate Sorting(rules: seq<Rule>, sorted: seq<Rule>) {
    Descending(sorted) && multiset(sorted) == multiset(rules)
  }

  function FirstMatch(sorted: seq<Rule>, q: Query): Option<Rule> {
    if sorted == [] then None
    else if RuleMatches(sorted[0], q) then Some(sorted[0])
    else FirstMatch(sorted[1..], q)
  }

  /** First match and tie check over one order of the rules. */
  ghost function Decision(sorted: seq<Rule>, q: Query): Effect {
    match FirstMatch(sorted, q)
    case None => Deny
    case Some(m) => if Conflicted(sorted, q, m) then Deny else m.effect
  }

  /** The decisions without an order: any matching rule of the highest priority may come first. */
  ghost predicate Possible(rules: seq<Rule>, q: Query, d: Effect) {
    if exists r :: r in rules && RuleMatches(r, q)
    then exists m :: Top(rules, q, m) && d == if Conflicted(rules, q, m) then Deny else m.effect
    else d == Deny
  }

  lemma {:induction false} TopExists(rules: seq<Rule>, q: Query)
    requires exists r :: r in rules && RuleMatches(r, q)
    ensures exists m :: Top(rules, q, m)
  {
    var last, init := rules[|rules| - 1], rules[..|rules| - 1];
    assert forall r :: r in rules <==> r in init || r == last;
    if exists r :: r in init && RuleMatches(r, q) {
      TopExists(init, q);
      var m :| Top(init, q, m);
      if RuleMatches(last, q) && last.priority > m.priority {
        assert Top(rules, q, last);
      } else {
        assert Top(rules, q, m);
      }
    } else {
      assert Top(rules, q, last);
    }
  }

  /** Every top rule says the same about the meaning. */
  lemma MeaningAt(rules: seq<Rule>, q: Query, m: Rule)
    requires Top(rules, q, m)
    ensures Meaning(rules, q) == if Agreed(rules, q, m.effect) then m.effect else Deny
  {
  }

  /** With distinct ids a conflicting tie is exactly a disagreement among the top rules. */
  lemma ConflictIsDisagreement(rules: seq<Rule>, q: Query, m: Rule)
    requires DistinctIds(rules) && Top(rules, q, m)
    ensures Conflicted(rules, q, m) <==> !Agreed(rules, q, m.effect)
  {
  }

  /** The first match is a matching rule with none before it. */
  lemma {:induction false} FirstMatchIs(sorted: seq<Rule>, q: Query)
    ensures FirstMatch(sorted, q).None? <==> forall r :: r in sorted ==> !RuleMatches(r, q)
    ensures FirstMatch(sorted, q).Some? ==>
              exists k :: 0 <= k < |sorted| && sorted[k] == FirstMatch(sorted, q).value && RuleMatches(sorted[k], q)
                          && forall j :: 0 <= j < k ==> !RuleMatches(sorted[j], q)
  {
    if sorted != [] {
      FirstMatchIs(sorted[1..], q);
      assert forall r :: r in sorted <==> r == sorted[0] || r in sorted[1..];
      if !RuleMatches(sorted[0], q) && FirstMatch(sorted[1..], q).Some? {
        var rest := sorted[1..];
        var k :| 0 <= k < |rest| && rest[k] == FirstMatch(rest, q).value && RuleMatches(rest[k], q)
                 && forall j :: 0 <= j < k ==> !RuleMatches(rest[j], q);
        assert sorted[k + 1] == FirstMatch(sorted, q).value;
        forall j | 0 <= j < k + 1
          ensures !RuleMatches(sorted[j], q)
        {
          assert j > 0 ==> sorted[j] == rest[j - 1];
        }
      }
    }
  }

  /** Every outcome of the sort decides something possible. */
  lemma SortedIsPossible(rules: seq<Rule>, sorted: seq<Rule>, q: Query)
    requires Sorting(rules, sorted)
    ensures Possible(rules, q, Decision(sorted, q))
  {
    assert forall r :: r in rules <==> r in multiset(rules);
    assert forall r :: r in sorted <==> r in multiset(sorted);
    FirstMatchIs(sorted, q);
    if FirstMatch(sorted, q).Some? {
      var k :| 0 <= k < |sorted| && sorted[k] == FirstMatch(sorted, q).value && RuleMatches(sorted[k], q)
               && forall j :: 0 <= j < k ==> !RuleMatches(sorted[j], q);
      FirstMatchIsTop(rules, sorted, q, k);
    }
  }

  /** A rule can be put before all others of at most its priority. */
  lemma {:induction false} InsertFirst(sorted: seq<Rule>, r: Rule) returns (k: nat)
    requires Descending(sorted)
    ensures k <= |sorted| && (forall j :: 0 <= j < k ==> sorted[j].priority > r.priority)
    ensures k < |sorted| ==> sorted[k].priority <= r.priority
  {
    if sorted == [] || sorted[0].priority <= r.priority {
      k := 0;
    } else {
      k := InsertFirst(sorted[1..], r);
      assert forall j :: 0 < j < |sorted| ==> sorted[j] == sorted[1..][j - 1];
      k := k + 1;
    }
  }

  lemma {:induction false} SortingExists(rules: seq<Rule>) returns (sorted: seq<Rule>)
    ensures Sorting(rules, sorted)
  {
    if rules == [] {
      sorted := [];
    } else {
      var rest := SortingExists(rules[1..]);
      var k := InsertFirst(rest, rules[0]);
      InsertedSorted(rest, rules[0], k);
      sorted := rest[..k] + [rules[0]] + rest[k..];
      assert rules == [rules[0]] + rules[1..];
    }
  }

  /** Any top rule is the first match under some outcome of the sort. */
  lemma AnyTopComesFirst(rules: seq<Rule>, q: Query, m: Rule) returns (sorted: seq<Rule>)
    requires Top(rules, q, m)
    ensures Sorting(rules, sorted) && FirstMatch(sorted, q) == Some(m)
  {
    var i :| 0 <= i < |rules| && rules[i] == m;
    var others := rules[..i] + rules[i + 1..];
    assert rules == rules[..i] + [m] + rules[i + 1..];
    var rest := SortingExists(others);
    var k := InsertFirst(rest, m);
    InsertedSorted(rest, m, k);
    sorted := rest[..k] + [m] + rest[k..];
    assert multiset(sorted) == multiset(rules);
    forall j | 0 <= j < k
      ensures !RuleMatches(sorted[j], q)
    {
      assert sorted[j] in multiset(sorted) && sorted[j] in rules;
    }
    FirstMatchAt(sorted, q, k);
  }

  lemma {:induction false} FirstMatchAt(sorted: seq<Rule>, q: Query, k: nat)
    requires k < |sorted| && RuleMatches(sorted[k], q) && forall j :: 0 <= j < k ==> !RuleMatches(sorted[j], q)
    ensures FirstMatch(sorted, q) == Some(sorted[k])
  {
    if k > 0 {
      FirstMatchAt(sorted[1..], q, k - 1);
    }
  }

  /** Everything possible is decided by some outcome of the sort. */
  lemma PossibleIsSorted(rules: seq<Rule>, q: Query, d: Effect) returns (sorted: seq<Rule>)
    requires Possible(rules, q, d)
    ensures Sorting(rules, sorted) && Decision(sorted, q) == d
  {
    assert forall r :: r in rules <==> r in multiset(rules);
    if exists r :: r in rules && RuleMatches(r, q) {
      var m :| Top(rules, q, m) && d == if Conflicted(rules, q, m) then Deny else m.effect;
      sorted := AnyTopComesFirst(rules, q, m);
      assert forall r :: r in sorted <==> r in multiset(sorted);
      assert Conflicted(sorted, q, m) <==> Conflicted(rules, q, m);
    } else {
      sorted := SortingExists(rules);
      assert forall r :: r in sorted <==> r in multiset(sorted);
      FirstMatchIs(sorted, q);
    }
  }

  /** Evaluator meaning: for distinct rule ids, first match and tie check decide the order-free meaning
      under every outcome of the sort. */
  lemma DecisionIsMeaning(rules: seq<Rule>, sorted: seq<Rule>, q: Query)
    requires DistinctIds(rules) && Sorting(rules, sorted)
    ensures Decision(sorted, q) == Meaning(rules, q)
  {
    SortedIsPossible(rules, sorted, q);
    PossibleIsMeaning(rules, q, Decision(sorted, q));
  }

  lemma PossibleIsMeaning(rules: seq<Rule>, q: Query, d: Effect)
    requires DistinctIds(rules)
    ensures Possible(rules, q, d) <==> d == Meaning(rules, q)
  {
    if exists r :: r in rules && RuleMatches(r, q) {
      TopExists(rules, q);
      forall m | Top(rules, q, m)
        ensures (if Conflicted(rules, q, m) then Deny else m.effect) == Meaning(rules, q)
      {
        ConflictIsDisagreement(rules, q, m);
        MeaningAt(rules, q, m);
      }
    }
  }

  /** So the decision is the same for every permutation of the rules, however each is sorted. */
  lemma OrderDoesNotMatter(a: seq<Rule>, b: seq<Rule>, sortedA: seq<Rule>, sortedB: seq<Rule>, q: Query)
    requires DistinctIds(a) && multiset(a) == multiset(b)
    requires Sorting(a, sortedA) && Sorting(b, sortedB)
    ensures Decision(sortedA, q) == Decision(sortedB, q)
  {
    DecisionIsMeaning(a, sortedA, q);
    DecisionIsMeaning(a, sortedB, q);
  }

  /** The sort may leave every top rule that grants something first, so each must be unopposed or
      opposed under another id. */
  ghost predicate TiesVisible(rules: seq<Rule>, q: Query) {
    forall m :: Top(rules, q, m) && m.effect != Deny && !Agreed(rules, q, m.effect) ==> Conflicted(rules, q, m)
  }

  /** Without distinct ids the tie check skips rules that share the matched rule's id. Every outcome of
      the sort decides the meaning if and only if no disagreement hides behind a shared id. */
  lemma MeaningHoldsIff(rules: seq<Rule>, q: Query)
    ensures (forall sorted :: Sorting(rules, sorted) ==> Decision(sorted, q) == Meaning(rules, q)) <==>
            TiesVisible(rules, q)
  {
    if TiesVisible(rules, q) {
      forall sorted | Sorting(rules, sorted)
        ensures Decision(sorted, q) == Meaning(rules, q)
      {
        SortedIsPossible(rules, sorted, q);
        VisibleTiesDecide(rules, q, Decision(sorted, q));
      }
    } else {
      var m :| Top(rules, q, m) && m.effect != Deny && !Agreed(rules, q, m.effect) && !Conflicted(rules, q, m);
      TopDecides(rules, q, m);
      var sorted := PossibleIsSorted(rules, q, m.effect);
      assert Sorting(rules, sorted) && Decision(sorted, q) != Meaning(rules, q);
    }
  }

  lemma TopDecides(rules: seq<Rule>, q: Query, m: Rule)
    requires Top(rules, q, m)
    ensures Possible(rules, q, if Conflicted(rules, q, m) then Deny else m.effect)
    ensures Agreed(rules, q, m.effect) ==> !Conflicted(rules, q, m)
    ensures Meaning(rules, q) == if Agreed(rules, q, m.effect) then m.effect else Deny
  {
    MeaningAt(rules, q, m);
    if Conflicted(rules, q, m) {
      var r :| r in rules && r.id != m.id && r.priority == m.priority && r.effect != m.effect && RuleMatches(r, q);
      assert Top(rules, q, r);
    }
  }

  lemma VisibleTiesDecide(rules: seq<Rule>, q: Query, d: Effect)
    requires TiesVisible(rules, q) && Possible(rules, q, d)
    ensures d == Meaning(rules, q)
  {
    if exists r :: r in rules && RuleMatches(r, q) {
      var m :| Top(rules, q, m) && d == if Conflicted(rules, q, m) then Deny else m.effect;
      TopDecides(rules, q, m);
    }
  }

  /** Two match-all rules of one id and one priority: the two orders are both outcomes of the sort, and
      one allows what the other denies. */
  lemma SharedIdIsAmbiguous(id: string, q: Query)
    ensures var allow := Rule(id, 1, AllowWithoutStepUp, [], [], [], []);
            var deny := Rule(id, 1, Deny, [], [], [], []);
            && Sorting([allow, deny], [allow, deny]) && Decision([allow, deny], q) == AllowWithoutStepUp
            && Sorting([allow, deny], [deny, allow]) && Decision([deny, allow], q) == Deny
  {
    var allow, deny := Rule(id, 1, AllowWithoutStepUp, [], [], [], []), Rule(id, 1, Deny, [], [], [], []);
    assert RuleMatches(allow, q) && RuleMatches(deny, q);
    assert FirstMatch([allow, deny], q) == Some(allow) && FirstMatch([deny, allow], q) == Some(deny);
    assert forall r :: r in [allow, deny] ==> r.id == id;
    assert forall r :: r in [deny, allow] ==> r.id == id;
  }

  // ---- monotonicity ----

  lemma TopAfterAdding(rules: seq<Rule>, q: Query, r: Rule, m: Rule)
    requires Top(rules, q, m)
    ensures !RuleMatches(r, q) || r.priority < m.priority ==> forall o :: Top(rules + [r], q, o) <==> Top(rules, q, o)
    ensures RuleMatches(r, q) && r.priority == m.priority ==>
              forall o :: Top(rules + [r], q, o) <==> Top(rules, q, o) || o == r
    ensures RuleMatches(r, q) && r.priority > m.priority ==> forall o :: Top(rules + [r], q, o) <==> o == r
  {
  }

  /** Adding a DENY rule leaves the decision or turns it into DENY. */
  lemma AddingDenyIsSafe(rules: seq<Rule>, q: Query, r: Rule)
    requires r.effect == Deny
    ensures Meaning(rules + [r], q) == Meaning(rules, q) || Meaning(rules + [r], q) == Deny
  {
    if m :| Top(rules, q, m) {
      TopAfterAdding(rules, q, r, m);
      MeaningAt(rules, q, m);
      if RuleMatches(r, q) && r.priority >= m.priority {
        assert Top(rules + [r], q, r);
        MeaningAt(rules + [r], q, r);
      } else {
        assert Agreed(rules + [r], q, m.effect) <==> Agreed(rules, q, m.effect);
        MeaningAt(rules + [r], q, m);
      }
    } else {
      OnlyAdded(rules, q, r);
    }
  }

  lemma OnlyAdded(rules: seq<Rule>, q: Query, r: Rule)
    requires !exists m :: Top(rules, q, m)
    ensures Meaning(rules + [r], q) == r.effect || Meaning(rules + [r], q) == Deny
  {
    if exists o :: o in rules && RuleMatches(o, q) {
      TopExists(rules, q);
    }
    assert forall o :: o in rules + [r] <==> o in rules || o == r;
    if o :| Top(rules + [r], q, o) {
      MeaningAt(rules + [r], q, o);
    }
  }

  /** When the top priority yields DENY, by a rule or by a conflict, no rule of at most that
      priority changes it. */
  lemma DenyAtTopStands(rules: seq<Rule>, q: Query, r: Rule, m: Rule)
    requires Top(rules, q, m) && Meaning(rules, q) == Deny && r.priority <= m.priority
    ensures Meaning(rules + [r], q) == Deny
  {
  }

  /** The same two facts about the evaluator itself, for a rule with a fresh id and any two sorts. */
  lemma EvaluatorIsMonotone(rules: seq<Rule>, r: Rule, sorted: seq<Rule>, longer: seq<Rule>, q: Query)
    requires DistinctIds(rules) && forall o :: o in rules ==> o.id != r.id
    requires Sorting(rules, sorted) && Sorting(rules + [r], longer)
    ensures r.effect == Deny ==> Decision(longer, q) == Decision(sorted, q) || Decision(longer, q) == Deny
    ensures Decision(sorted, q) == Deny && (exists m :: Top(rules, q, m) && r.priority <= m.priority) ==>
              Decision(longer, q) == Deny
  {
    assert forall o :: o in rules + [r] <==> o in rules || o == r;
    DecisionIsMeaning(rules, sorted, q);
    DecisionIsMeaning(rules + [r], longer, q);
    if r.effect == Deny {
      AddingDenyIsSafe(rules, q, r);
    }
    if m :| Top(rules, q, m) && r.priority <= m.priority && Meaning(rules, q) == Deny {
      DenyAtTopStands(rules, q, r, m);
    }
  }

  // ---- the evaluator ----

  method Contains<T(==)>(xs: seq<T>, x: T) returns (found: bool)
    ensures found <==> x in xs
  {
    for i := 0 to |xs|
      invariant x !in xs[..i]
    {
      if xs[i] == x {
        return true;
      }
    }
    return false;
  }

  method MatchSubject(sel: SubjectSelector, p: Principal) returns (b: bool)
    ensures b == SubjectMatches(sel, p)
  {
    if |sel.kinds| > 0 {
      var kindMatched := Contains(sel.kinds, p.kind);
      if !kindMatched {
        return false;
      }
    }
    if |sel.users| > 0 && p.user.Some? {
      b := Contains(sel.users, p.user.value);
      return;
    }
    if |sel.users| == 0 && |sel.groups| == 0 && |sel.tags| == 0 && |sel.kinds| == 0 {
      return true;
    }
    return |sel.kinds| > 0;
  }

  method MatchResource(sel: ResourceSelector, r: Resource) returns (b: bool)
    ensures b == ResourceMatches(sel, r)
  {
    if |sel.ids| > 0 {
      for i := 0 to |sel.ids|
        invariant r.service !in sel.ids[..i] && r.node !in sel.ids[..i]
      {
        if sel.ids[i] == r.service || sel.ids[i] == r.node {
          return true;
        }
      }
      return false;
    }
    if |sel.ports| > 0 {
      b := Contains(sel.ports, r.port);
      return;
    }
    if |sel.services| > 0 {
      b := Contains(sel.services, r.service);
      return;
    }
    if |sel.modes| > 0 {
      b := Contains(sel.modes, r.mode);
      return;
    }
    return true;
  }

  method MatchRule(rule: Rule, q: Query) returns (b: bool)
    ensures b == RuleMatches(rule, q)
  {
    if |rule.subjects| > 0 {
      var matched := false;
      for i := 0 to |rule.subjects|
        invariant matched <==> exists k :: 0 <= k < i && SubjectMatches(rule.subjects[k], q.principal)
      {
        var one := MatchSubject(rule.subjects[i], q.principal);
        matched := matched || one;
      }
      if !matched {
        return false;
      }
    }
    if |rule.resources| > 0 {
      var matched := false;
      for i := 0 to |rule.resources|
        invariant matched <==> exists k :: 0 <= k < i && ResourceMatches(rule.resources[k], q.resource)
      {
        var one := MatchResource(rule.resources[i], q.resource);
        matched := matched || one;
      }
      if !matched {
        return false;
      }
    }
    if |rule.protocols| > 0 {
      var matched := Contains(rule.protocols, q.protocol);
      if !matched {
        return false;
      }
    }
    if |rule.scopes| > 0 {
      var matched := Contains(rule.scopes, q.scope);
      if !matched {
        return false;
      }
    }
    return true;
  }

  method HasConflictingTie(rules: seq<Rule>, m: Rule, q: Query) returns (b: bool)
    ensures b == Conflicted(rules, q, m)
  {
    for i := 0 to |rules|
      invariant !Conflicted(rules[..i], q, m)
    {
      var r := rules[i];
      if r.id != m.id && r.priority == m.priority && r.effect != m.effect {
        var hit := MatchRule(r, q);
        if hit {
          return true;
        }
      }
      assert forall o :: o in rules[..i + 1] <==> o in rules[..i] || o == r;
    }
    assert rules[..|rules|] == rules;
    return false;
  }

  /** Any sort by falling priority; callers know nothing about equal priorities. */
  method SortByPriority(rules: seq<Rule>) returns (sorted: seq<Rule>)
    ensures Sorting(rules, sorted)
  {
    sorted := [];
    for i := 0 to |rules|
      invariant Descending(sorted) && multiset(sorted) == multiset(rules[..i])
    {
      sorted := InsertByPriority(sorted, rules[i]);
      assert rules[..i + 1] == rules[..i] + [rules[i]];
    }
    assert rules[..|rules|] == rules;
  }

  method InsertByPriority(sorted: seq<Rule>, r: Rule) returns (longer: seq<Rule>)
    requires Descending(sorted)
    ensures Descending(longer) && multiset(longer) == multiset(sorted) + multiset{r}
  {
    var k := 0;
    while k < |sorted| && sorted[k].priority > r.priority
      invariant 0 <= k <= |sorted|
      invariant forall j :: 0 <= j < k ==> sorted[j].priority > r.priority
    {
      k := k + 1;
    }
    InsertedSorted(sorted, r, k);
    return sorted[..k] + [r] + sorted[k..];
  }

  lemma InsertedSorted(sorted: seq<Rule>, r: Rule, k: nat)
    requires Descending(sorted) && k <= |sorted|
    requires forall j :: 0 <= j < k ==> sorted[j].priority > r.priority
    requires k < |sorted| ==> sorted[k].priority <= r.priority
    ensures Descending(sorted[..k] + [r] + sorted[k..])
    ensures multiset(sorted[..k] + [r] + sorted[k..]) == multiset(sorted) + multiset{r}
  {
    assert sorted == sorted[..k] + sorted[k..];
  }

  lemma FirstMatchIsTop(rules: seq<Rule>, sorted: seq<Rule>, q: Query, k: nat)
    requires Descending(sorted) && multiset(sorted) == multiset(rules)
    requires k < |sorted| && RuleMatches(sorted[k], q)
    requires forall j :: 0 <= j < k ==> !RuleMatches(sorted[j], q)
    ensures Top(rules, q, sorted[k])
    ensures Conflicted(sorted, q, sorted[k]) == Conflicted(rules, q, sorted[k])
  {
    assert forall r :: r in rules <==> r in multiset(rules);
    assert forall r :: r in sorted <==> r in multiset(sorted);
    forall o | o in rules && RuleMatches(o, q)
      ensures o.priority <= sorted[k].priority
    {
      assert o in sorted;
    }
  }

  const REFUSED: Result := Result(Deny, None, false, 0, 0)

  /** The answer over one order of the rules: refused when nothing matches or a tie conflicts, else
      that of the first match. */
  ghost function ResultOf(b: Bundle, sorted: seq<Rule>, q: Query): Result {
    match FirstMatch(sorted, q)
    case None => REFUSED
    case Some(m) =>
      if Conflicted(sorted, q, m) then REFUSED
      else Result(m.effect, Some(m.id), m.effect == RequireStepUp, b.version, b.epoch)
  }

  /** Evaluate, from the registry lookup to the decision. No bundle stands for one that is
      missing, unreadable or unparseable. */
  method Evaluate(isProtected: bool, bundle: Option<Bundle>, q: Query, now: Time) returns (r: Result)
    ensures !isProtected ==> r == REFUSED.(decision := NotProtected)
    ensures isProtected && (bundle.None? || now > bundle.value.expires) ==> r == REFUSED
    ensures isProtected && bundle.Some? && now <= bundle.value.expires ==>
              exists sorted :: Sorting(bundle.value.rules, sorted) && r == ResultOf(bundle.value, sorted, q)
    ensures isProtected && bundle.Some? && now <= bundle.value.expires && DistinctIds(bundle.value.rules) ==>
              r.decision == Meaning(bundle.value.rules, q)
    ensures r.matched.None? ==> r == REFUSED || r == REFUSED.(decision := NotProtected)
    ensures r.matched.Some? ==>
              && isProtected && bundle.Some? && r.version == bundle.value.version && r.epoch == bundle.value.epoch
              && exists m :: Top(bundle.value.rules, q, m) && m.id == r.matched.value && m.effect == r.decision
    ensures r.stepUp <==> r.matched.Some? && r.decision == RequireStepUp
  {
    if !isProtected {
      return REFUSED.(decision := NotProtected);
    }
    if bundle.None? {
      return REFUSED;
    }
    if now > bundle.value.expires {
      return REFUSED;
    }
    var rules := bundle.value.rules;
    var sorted := SortByPriority(rules);
    for k := 0 to |sorted|
      invariant forall j :: 0 <= j < k ==> !RuleMatches(sorted[j], q)
    {
      var hit := MatchRule(sorted[k], q);
      if hit {
        FirstMatchAt(sorted, q, k);
        FirstMatchIsTop(rules, sorted, q, k);
        var tie := HasConflictingTie(sorted, sorted[k], q);
        r := if tie then REFUSED
             else Result(sorted[k].effect, Some(sorted[k].id), sorted[k].effect == RequireStepUp,
                         bundle.value.version, bundle.value.epoch);
        assert r == ResultOf(bundle.value, sorted, q);
        if DistinctIds(rules) {
          DecisionIsMeaning(rules, sorted, q);
        }
        return;
      }
    }
    FirstMatchIs(sorted, q);
    assert REFUSED == ResultOf(bundle.value, sorted, q);
    if DistinctIds(rules) {
      DecisionIsMeaning(rules, sorted, q);
    }
    return REFUSED;
  }
}
