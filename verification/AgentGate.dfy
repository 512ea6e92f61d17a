/**
  The gate for answers from agents: who may answer a decision packet, what a complete answer is,
  and that an agent can only repeat a low-risk recommendation. It rests on comparing JSON values,
  and lists of them regardless of order, the way the program's language compares them.
*/
module AgentGate {
  import opened Wrappers

  // ---------------------------------------------------------------- values

  datatype Value =
    | Null
    | Bool(flag: bool)
    | Int(number: int)
    | Float(quantity: real)
    | Str(text: string)
    | List(items: seq<Value>)
    | Dict(entries: map<string, Value>)

  predicate Numeric(v: Value) { v.Bool? || v.Int? || v.Float? }

  function Amount(v: Value): real
    requires Numeric(v)
  {
    match v
    case Bool(b) => if b then 1.0 else 0.0
    case Int(n) => n as real
    case Float(x) => x
  }

  /** Equality of values: numbers of any type are equal when their amounts are, at every depth. */
  predicate Equal(a: Value, b: Value)
    decreases a
  {
    if Numeric(a) && Numeric(b) then Amount(a) == Amount(b)
    else
      match (a, b)
      case (Null, Null) => true
      case (Str(s), Str(t)) => s == t
      case (List(xs), List(ys)) => |xs| == |ys| && forall i :: 0 <= i < |xs| ==> Equal(xs[i], ys[i])
      case (Dict(m), Dict(n)) => m.Keys == n.Keys && forall k :: k in m ==> Equal(m[k], n[k])
      case _ => false
  }

  predicate SameType(a: Value, b: Value) {
    match a
    case Null => b.Null?
    case Bool(_) => b.Bool?
    case Int(_) => b.Int?
    case Float(_) => b.Float?
    case Str(_) => b.Str?
    case List(_) => b.List?
    case Dict(_) => b.Dict?
  }

  /** The test of the gate: the same type at the top, and equal. */
  predicate Matches(a: Value, b: Value) {
    SameType(a, b) && Equal(a, b)
  }

  /** A value with all its numbers, at any depth, replaced by their amounts. */
  function Canon(v: Value): Value
    decreases v
  {
    match v
    case Bool(_) => Float(Amount(v))
    case Int(_) => Float(Amount(v))
    case List(xs) => List(seq(|xs|, i requires 0 <= i < |xs| => Canon(xs[i])))
    case Dict(m) => Dict(map k | k in m :: Canon(m[k]))
    case _ => v
  }

  /** What two values must agree on to match. */
  datatype Key = Key(tag: nat, canon: Value)

  function Tag(v: Value): nat {
    match v case Null => 0 case Bool(_) => 1 case Int(_) => 2 case Float(_) => 3 case Str(_) => 4 case List(_) => 5 case Dict(_) => 6
  }

  function KeyOf(v: Value): Key {
    Key(Tag(v), Canon(v))
  }

  /** Equality is sameness of canonical forms, so it is an equivalence although it crosses types. */
  lemma {:induction false} EqualIsSameCanon(a: Value, b: Value)
    ensures Equal(a, b) <==> Canon(a) == Canon(b)
    decreases a
  {
    match (a, b) {
      case (List(xs), List(ys)) =>
        forall i | 0 <= i < |xs| && i < |ys| ensures Equal(xs[i], ys[i]) <==> Canon(xs[i]) == Canon(ys[i]) {
          EqualIsSameCanon(xs[i], ys[i]);
        }
        if Canon(a) == Canon(b) {
          assert |Canon(a).items| == |xs| && |Canon(b).items| == |ys|;
          forall i | 0 <= i < |xs| ensures Equal(xs[i], ys[i]) {
            assert Canon(a).items[i] == Canon(b).items[i];
          }
        }
      case (Dict(m), Dict(n)) =>
        forall k | k in m && k in n ensures Equal(m[k], n[k]) <==> Canon(m[k]) == Canon(n[k]) {
          EqualIsSameCanon(m[k], n[k]);
        }
        assert Canon(a).entries.Keys == m.Keys && Canon(b).entries.Keys == n.Keys;
        if Canon(a) == Canon(b) {
          forall k | k in m ensures Equal(m[k], n[k]) {
            assert Canon(a).entries[k] == Canon(b).entries[k];
          }
        }
      case _ =>
    }
  }

  lemma MatchesIsSameKey(a: Value, b: Value)
    ensures Matches(a, b) <==> KeyOf(a) == KeyOf(b)
  {
    EqualIsSameCanon(a, b);
  }

  function Keys(values: seq<Value>): seq<Key> {
    seq(|values|, i requires 0 <= i < |values| => KeyOf(values[i]))
  }

  /** The same values with the same multiplicities, in any order. */
  predicate SameMultiset(left: seq<Value>, right: seq<Value>) {
    multiset(Keys(left)) == multiset(Keys(right))
  }

  lemma KeysWithout(values: seq<Value>, i: nat)
    requires i < |values|
    ensures multiset(Keys(values)) == multiset(Keys(values[..i] + values[i + 1..])) + multiset{KeyOf(values[i])}
  {
    var keys := Keys(values);
    assert Keys(values[..i] + values[i + 1..]) == keys[..i] + keys[i + 1..];
    assert keys == keys[..i] + [keys[i]] + keys[i + 1..];
  }

  /** Strikes each value of one list off a copy of the other. */
  method SameValueMultiset(left: seq<Value>, right: seq<Value>) returns (same: bool)
    ensures same <==> SameMultiset(left, right)
  {
    if |left| != |right| {
      DifferentLengths(left, right);
      return false;
    }
    var remaining := right;
    assert Keys(left[..0]) == [];
    for i := 0 to |left|
      invariant multiset(Keys(left[..i])) + multiset(Keys(remaining)) == multiset(Keys(right))
      invariant |remaining| == |right| - i
    {
      var found := false;
      var index := 0;
      while index < |remaining|
        invariant 0 <= index <= |remaining|
        invariant forall j :: 0 <= j < index ==> !Matches(left[i], remaining[j])
      {
        if Matches(left[i], remaining[index]) {
          found := true;
          break;
        }
        index := index + 1;
      }
      assert left[..i + 1] == left[..i] + [left[i]];
      assert Keys(left[..i + 1]) == Keys(left[..i]) + [KeyOf(left[i])];
      if !found {
        NotAmong(left, right, i, remaining);
        return false;
      }
      MatchesIsSameKey(left[i], remaining[index]);
      KeysWithout(remaining, index);
      remaining := remaining[..index] + remaining[index + 1..];
    }
    assert left[..|left|] == left;
    assert Keys(remaining) == [];
    same := remaining == [];
  }

  lemma DifferentLengths(left: seq<Value>, right: seq<Value>)
    requires |left| != |right|
    ensures !SameMultiset(left, right)
  {
    assert |multiset(Keys(left))| == |left| && |multiset(Keys(right))| == |right|;
  }

  lemma NotAmong(left: seq<Value>, right: seq<Value>, i: nat, remaining: seq<Value>)
    requires i < |left| && multiset(Keys(left[..i])) + multiset(Keys(remaining)) == multiset(Keys(right))
    requires forall j :: 0 <= j < |remaining| ==> !Matches(left[i], remaining[j])
    ensures !SameMultiset(left, right)
  {
    var k := KeyOf(left[i]);
    forall j | 0 <= j < |remaining| ensures Keys(remaining)[j] != k { MatchesIsSameKey(left[i], remaining[j]); }
    assert multiset(Keys(remaining))[k] == 0;
    var keys := Keys(left);
    assert Keys(left[..i]) == keys[..i];
    assert keys == keys[..i] + ([keys[i]] + keys[i + 1..]);
    assert multiset(keys) == multiset(keys[..i]) + multiset([keys[i]]) + multiset(keys[i + 1..]);
    assert multiset(keys)[k] >= multiset(keys[..i])[k] + 1;
  }

  // ---------------------------------------------------------------- packets

  datatype Risk = LOW | MEDIUM | HIGH
  datatype Choice = Choice(value: Value, risk: Risk)
  datatype Mode = SINGLE | MULTIPLE | FREEFORM
  datatype Question = Question(id: string, mode: Option<Mode>, least: int, most: int, options: seq<Choice>, recommendation: Value)
  datatype Policy = AGENT_ALLOWED | HUMAN_REQUIRED | APPROVAL_REQUIRED
  datatype Packet = Packet(policy: Policy, questions: seq<Question>)

  datatype Actor = HUMAN | AGENT | SERVICE | DEVELOPMENT
  datatype Error = HumanDecisionRequired | ApprovalRequired | IncompleteWaitSet | InvalidAnswer | MustUseRecommendation

  datatype Answer = Answer(id: string, value: Value)

  function Selected(q: Question, v: Value): Option<seq<Value>> {
    if EffectiveMode(q) == MULTIPLE then (if v.List? then Some(v.items) else None)
    else if v.List? then None else Some([v])
  }

  function EffectiveMode(q: Question): Mode {
    if q.mode.Some? then q.mode.value else if q.options != [] then SINGLE else FREEFORM
  }

  predicate Offered(q: Question, v: Value) {
    exists i :: 0 <= i < |q.options| && Matches(v, q.options[i].value)
  }

  predicate LowRisk(q: Question, v: Value) {
    exists i :: 0 <= i < |q.options| && Matches(v, q.options[i].value) && q.options[i].risk == LOW
  }

  /** The first option with that value is of low risk. */
  predicate FirstIsLow(q: Question, v: Value) {
    exists i :: 0 <= i < |q.options| && Matches(q.options[i].value, v) && q.options[i].risk == LOW
      && forall j :: 0 <= j < i ==> !Matches(q.options[j].value, v)
  }

  function Recommended(q: Question): seq<Value> {
    if q.mode != Some(MULTIPLE) then [q.recommendation]
    else if q.recommendation.List? then q.recommendation.items else []
  }

  /** A question an agent may be left with: everything recommended is a low-risk option. */
  predicate Recommendable(q: Question) {
    && q.recommendation != Null && (q.mode == Some(MULTIPLE) ==> q.recommendation.List?)
    && q.options != []
    && forall i :: 0 <= i < |Recommended(q)| ==> FirstIsLow(q, Recommended(q)[i])
  }

  method DecisionResolutionPolicy(allowExternalLlm: bool, standardRisk: bool, questions: seq<Question>) returns (policy: Policy)
    ensures policy == if allowExternalLlm && standardRisk && forall k :: 0 <= k < |questions| ==> Recommendable(questions[k])
      then AGENT_ALLOWED else HUMAN_REQUIRED
  {
    if !allowExternalLlm || !standardRisk { return HUMAN_REQUIRED; }
    for k := 0 to |questions|
      invariant forall j :: 0 <= j < k ==> Recommendable(questions[j])
    {
      var q := questions[k];
      if q.recommendation == Null { return HUMAN_REQUIRED; }
      if q.mode == Some(MULTIPLE) && !q.recommendation.List? { return HUMAN_REQUIRED; }
      if q.options == [] { return HUMAN_REQUIRED; }
      var values := Recommended(q);
      for i := 0 to |values|
        invariant forall j :: 0 <= j < i ==> FirstIsLow(q, values[j])
      {
        var o := 0;
        while o < |q.options| && !Matches(q.options[o].value, values[i])
          invariant 0 <= o <= |q.options|
          invariant forall j :: 0 <= j < o ==> !Matches(q.options[j].value, values[i])
        {
          o := o + 1;
        }
        if o == |q.options| || q.options[o].risk != LOW {
          assert !FirstIsLow(q, values[i]);
          return HUMAN_REQUIRED;
        }
      }
    }
    policy := AGENT_ALLOWED;
  }

  // ---------------------------------------------------------------- the gate

  /** Answers by question, a later one for the same question replacing an earlier one. */
  function ById(answers: seq<Answer>): map<string, Value> {
    if answers == [] then map[] else ById(answers[..|answers| - 1])[answers[|answers| - 1].id := answers[|answers| - 1].value]
  }

  function Required(questions: seq<Question>): set<string> {
    set i | 0 <= i < |questions| :: questions[i].id
  }

  predicate Complete(packet: Packet, answers: seq<Answer>) {
    |ById(answers)| == |answers| && ById(answers).Keys == Required(packet.questions)
  }

  predicate Fits(q: Question, v: Value) {
    && Selected(q, v).Some?
    && q.least <= |Selected(q, v).value| <= q.most
    && (q.options != [] ==> forall i :: 0 <= i < |Selected(q, v).value| ==> Offered(q, Selected(q, v).value[i]))
  }

  predicate UsesRecommendation(q: Question, v: Value) {
    if q.mode == Some(MULTIPLE) then v.List? && q.recommendation.List? && SameMultiset(v.items, q.recommendation.items)
    else Matches(v, q.recommendation)
  }

  function ActorError(packet: Packet, actor: Actor): Option<Error> {
    if actor == DEVELOPMENT then None
    else if packet.policy == HUMAN_REQUIRED && actor != HUMAN then Some(HumanDecisionRequired)
    else if packet.policy == APPROVAL_REQUIRED then Some(ApprovalRequired)
    else None
  }

  predicate Gated(packet: Packet, actor: Actor) {
    actor in {AGENT, SERVICE} && packet.policy == AGENT_ALLOWED
  }

  /** The three checks of an answer request, in their order. */
  function Accept(packet: Packet, actor: Actor, answers: seq<Answer>): Result<map<string, Value>, Error> {
    if ActorError(packet, actor).Some? then Err(ActorError(packet, actor).value)
    else if !Complete(packet, answers) then Err(IncompleteWaitSet)
    else
      var byId := ById(answers);
      if exists k :: 0 <= k < |packet.questions| && packet.questions[k].id in byId && !Fits(packet.questions[k], byId[packet.questions[k].id])
      then Err(InvalidAnswer)
      else if Gated(packet, actor) &&
        exists k :: 0 <= k < |packet.questions| && packet.questions[k].id in byId
          && !UsesRecommendation(packet.questions[k], byId[packet.questions[k].id])
      then Err(MustUseRecommendation)
      else Ok(byId)
  }

  method ValidatePacketAnswers(packet: Packet, answers: seq<Answer>) returns (r: Result<map<string, Value>, Error>)
    ensures r == Accept(packet, DEVELOPMENT, answers)
  {
    var byId := CollectAnswers(answers);
    if |answers| != |byId| || byId.Keys != Required(packet.questions) { return Err(IncompleteWaitSet); }
    for k := 0 to |packet.questions|
      invariant forall j :: 0 <= j < k ==> Fits(packet.questions[j], byId[packet.questions[j].id])
    {
      var q := packet.questions[k];
      assert q.id in Required(packet.questions);
      var fits := CheckAnswer(q, byId[q.id]);
      if !fits { return Err(InvalidAnswer); }
    }
    r := Ok(byId);
  }

  method CollectAnswers(answers: seq<Answer>) returns (byId: map<string, Value>)
    ensures byId == ById(answers)
  {
    byId := map[];
    assert answers[..0] == [];
    for i := 0 to |answers|
      invariant byId == ById(answers[..i])
    {
      assert answers[..i + 1][..i] == answers[..i];
      byId := byId[answers[i].id := answers[i].value];
    }
    assert answers[..|answers|] == answers;
  }

  method CheckAnswer(q: Question, v: Value) returns (fits: bool)
    ensures fits == Fits(q, v)
  {
    var values := [v];
    if EffectiveMode(q) == MULTIPLE {
      if !v.List? { return false; }
      values := v.items;
    } else if v.List? {
      return false;
    }
    if !(q.least <= |values| <= q.most) { return false; }
    if q.options != [] {
      for i := 0 to |values|
        invariant forall j :: 0 <= j < i ==> Offered(q, values[j])
      {
        if !exists o :: 0 <= o < |q.options| && Matches(values[i], q.options[o].value) {
          assert !Offered(q, values[i]);
          return false;
        }
      }
    }
    fits := true;
  }

  method EnforceAgentRecommendations(packet: Packet, actor: Actor, byId: map<string, Value>) returns (error: Option<Error>)
    requires Required(packet.questions) <= byId.Keys
    ensures error ==
      if Gated(packet, actor) &&
        exists k :: 0 <= k < |packet.questions| && packet.questions[k].id in byId
          && !UsesRecommendation(packet.questions[k], byId[packet.questions[k].id])
      then Some(MustUseRecommendation) else None
  {
    if actor !in {AGENT, SERVICE} || packet.policy != AGENT_ALLOWED { return None; }
    for k := 0 to |packet.questions|
      invariant forall j :: 0 <= j < k ==> packet.questions[j].id in byId && UsesRecommendation(packet.questions[j], byId[packet.questions[j].id])
    {
      var q := packet.questions[k];
      assert q.id in Required(packet.questions);
      var v := byId[q.id];
      if q.mode == Some(MULTIPLE) {
        if !v.List? || !q.recommendation.List? { return Some(MustUseRecommendation); }
        var same := SameValueMultiset(v.items, q.recommendation.items);
        if !same { return Some(MustUseRecommendation); }
      } else if !Matches(v, q.recommendation) {
        return Some(MustUseRecommendation);
      }
    }
    error := None;
  }

  method AnswerPacket(packet: Packet, actor: Actor, answers: seq<Answer>) returns (r: Result<map<string, Value>, Error>)
    ensures r == Accept(packet, actor, answers)
  {
    if ActorError(packet, actor).Some? { return Err(ActorError(packet, actor).value); }
    r := ValidatePacketAnswers(packet, answers);
    if r.Err? { return; }
    var error := EnforceAgentRecommendations(packet, actor, r.value);
    if error.Some? { r := Err(error.value); }
  }

  // ---------------------------------------------------------------- what gets through

  /** A packet as the service makes it: only packets without doubtful recommendations are open to agents. */
  predicate ServiceMade(packet: Packet) {
    packet.policy == AGENT_ALLOWED ==> forall k :: 0 <= k < |packet.questions| ==> Recommendable(packet.questions[k])
  }

  lemma LowRiskCarries(q: Question, r: Value, v: Value)
    requires FirstIsLow(q, r) && KeyOf(v) == KeyOf(r)
    ensures LowRisk(q, v)
  {
    var i :| 0 <= i < |q.options| && Matches(q.options[i].value, r) && q.options[i].risk == LOW;
    MatchesIsSameKey(q.options[i].value, r);
    MatchesIsSameKey(v, q.options[i].value);
  }

  lemma MemberOfMultiset(left: seq<Value>, right: seq<Value>, i: nat) returns (j: nat)
    requires SameMultiset(left, right) && i < |left|
    ensures j < |right| && KeyOf(right[j]) == KeyOf(left[i])
  {
    var k := Keys(left)[i];
    assert k in multiset(Keys(left));
    assert k in multiset(Keys(right));
    assert k in Keys(right);
    j :| 0 <= j < |right| && Keys(right)[j] == k;
  }

  /**
    Whatever an agent or a service gets accepted repeats the recommendation of every question, as a
    multiset where several values may be chosen, and consists of low-risk options only.
  */
  lemma AgentAnswersAreLowRisk(packet: Packet, actor: Actor, answers: seq<Answer>, k: nat)
    requires ServiceMade(packet) && actor in {AGENT, SERVICE} && Accept(packet, actor, answers).Ok? && k < |packet.questions|
    ensures var q := packet.questions[k];
      var accepted := Accept(packet, actor, answers).value;
      && packet.policy == AGENT_ALLOWED && q.id in accepted
      && (if q.mode == Some(MULTIPLE)
          then accepted[q.id].List? && q.recommendation.List? && SameMultiset(accepted[q.id].items, q.recommendation.items)
          else KeyOf(accepted[q.id]) == KeyOf(q.recommendation))
      && Selected(q, accepted[q.id]).Some?
      && forall i :: 0 <= i < |Selected(q, accepted[q.id]).value| ==> LowRisk(q, Selected(q, accepted[q.id]).value[i])
  {
    var q := packet.questions[k];
    var accepted := Accept(packet, actor, answers).value;
    assert q.id in Required(packet.questions);
    var v := accepted[q.id];
    assert Fits(q, v) && UsesRecommendation(q, v) && Recommendable(q);
    hide Accept, Complete;
    if q.mode == Some(MULTIPLE) {
      forall i | 0 <= i < |v.items| ensures LowRisk(q, v.items[i]) {
        var j := MemberOfMultiset(v.items, q.recommendation.items, i);
        assert FirstIsLow(q, Recommended(q)[j]);
        LowRiskCarries(q, Recommended(q)[j], v.items[i]);
      }
    } else {
      MatchesIsSameKey(v, q.recommendation);
      assert FirstIsLow(q, Recommended(q)[0]);
      assert EffectiveMode(q) != MULTIPLE;
      LowRiskCarries(q, q.recommendation, v);
    }
  }

  /** Agents and services never answer a packet kept for people or for approval. */
  lemma HumanPacketsStayHuman(packet: Packet, actor: Actor, answers: seq<Answer>)
    requires packet.policy != AGENT_ALLOWED && actor in {AGENT, SERVICE}
    ensures Accept(packet, actor, answers) == Err(if packet.policy == HUMAN_REQUIRED then HumanDecisionRequired else ApprovalRequired)
  {
  }

  // ---------------------------------------------------------------- the recommendation itself gets through

  function RecommendedAnswers(questions: seq<Question>): seq<Answer> {
    seq(|questions|, i requires 0 <= i < |questions| => Answer(questions[i].id, questions[i].recommendation))
  }

  predicate DistinctIds(questions: seq<Question>) {
    forall i, j :: 0 <= i < j < |questions| ==> questions[i].id != questions[j].id
  }

  /** The recommendation has the shape the question asks for. */
  predicate WellShaped(q: Question) {
    if q.mode == Some(MULTIPLE) then q.recommendation.List? && q.least <= |q.recommendation.items| <= q.most
    else !q.recommendation.List? && q.least <= 1 <= q.most
  }

  lemma {:induction false} IdAmong(answers: seq<Answer>, id: string)
    ensures id in ById(answers) <==> exists i :: 0 <= i < |answers| && answers[i].id == id
    decreases |answers|
  {
    if answers != [] {
      var n := |answers| - 1;
      IdAmong(answers[..n], id);
      if i :| 0 <= i < n && answers[..n][i].id == id { assert answers[i].id == id; }
      if i :| 0 <= i < n && answers[i].id == id { assert answers[..n][i].id == id; }
    }
  }

  lemma {:induction false} ValueFrom(answers: seq<Answer>, id: string) returns (i: nat)
    requires id in ById(answers)
    ensures i < |answers| && answers[i] == Answer(id, ById(answers)[id])
    decreases |answers|
  {
    var n := |answers| - 1;
    if answers[n].id == id { i := n; } else { i := ValueFrom(answers[..n], id); }
  }

  predicate DistinctAnswers(answers: seq<Answer>) {
    forall i, j :: 0 <= i < j < |answers| ==> answers[i].id != answers[j].id
  }

  lemma {:induction false} ByIdSize(answers: seq<Answer>)
    ensures |ById(answers)| <= |answers|
    ensures |ById(answers)| == |answers| <==> DistinctAnswers(answers)
    decreases |answers|
  {
    if answers != [] {
      var n := |answers| - 1;
      var init, last := answers[..n], answers[n];
      ByIdSize(init);
      IdAmong(init, last.id);
      OneMoreKey(ById(init), last.id, last.value);
      DistinctOneMore(answers, n);
      hide DistinctAnswers;
    }
  }

  lemma OneMoreKey(m: map<string, Value>, id: string, v: Value)
    ensures |m[id := v]| == if id in m then |m| else |m| + 1
  {
    assert m[id := v].Keys == m.Keys + {id};
    assert |m[id := v]| == |m[id := v].Keys| && |m| == |m.Keys|;
  }

  lemma DistinctOneMore(answers: seq<Answer>, n: nat)
    requires |answers| == n + 1
    ensures DistinctAnswers(answers) <==>
      DistinctAnswers(answers[..n]) && !exists i :: 0 <= i < n && answers[..n][i].id == answers[n].id
  {
    if DistinctAnswers(answers[..n]) && !exists i :: 0 <= i < n && answers[..n][i].id == answers[n].id {
      forall i, j | 0 <= i < j < |answers| ensures answers[i].id != answers[j].id {
        assert answers[..n][i] == answers[i];
        if j < n { assert answers[..n][j] == answers[j]; }
      }
    }
  }

  lemma DistinctQuestions(questions: seq<Question>)
    ensures DistinctAnswers(RecommendedAnswers(questions)) <==> DistinctIds(questions)
  {
    var answers := RecommendedAnswers(questions);
    forall i, j | 0 <= i < j < |questions| ensures answers[i].id == questions[i].id && answers[j].id == questions[j].id {}
  }

  lemma RecommendedValue(questions: seq<Question>, k: nat)
    requires DistinctIds(questions) && k < |questions|
    ensures var byId := ById(RecommendedAnswers(questions));
      questions[k].id in byId && byId[questions[k].id] == questions[k].recommendation
  {
    hide ById;
    var answers := RecommendedAnswers(questions);
    IdAmong(answers, questions[k].id);
    assert answers[k].id == questions[k].id;
    var i := ValueFrom(answers, questions[k].id);
    assert questions[i].id == questions[k].id;
  }

  lemma RecommendedKeys(questions: seq<Question>)
    ensures ById(RecommendedAnswers(questions)).Keys == Required(questions)
  {
    hide ById;
    var answers := RecommendedAnswers(questions);
    forall id ensures id in ById(answers).Keys <==> id in Required(questions) {
      IdAmong(answers, id);
      if id in ById(answers).Keys {
        var i :| 0 <= i < |answers| && answers[i].id == id;
        assert questions[i].id == id;
      }
      if id in Required(questions) {
        var i :| 0 <= i < |questions| && questions[i].id == id;
        assert answers[i].id == id;
      }
    }
  }

  /** On a packet open to agents, submitting the recommendations is accepted if and only if the packet is well formed. */
  lemma RecommendationIsAcceptedExactly(packet: Packet, actor: Actor)
    requires packet.policy == AGENT_ALLOWED && ServiceMade(packet) && actor in {AGENT, SERVICE}
    ensures Accept(packet, actor, RecommendedAnswers(packet.questions)).Ok? <==>
      DistinctIds(packet.questions) && forall k :: 0 <= k < |packet.questions| ==> WellShaped(packet.questions[k])
  {
    hide ById, Fits, UsesRecommendation, Recommendable, WellShaped, DistinctIds, DistinctAnswers, Required;
    var answers := RecommendedAnswers(packet.questions);
    ByIdSize(answers);
    RecommendedKeys(packet.questions);
    DistinctQuestions(packet.questions);
    if DistinctIds(packet.questions) {
      forall k | 0 <= k < |packet.questions|
        ensures packet.questions[k].id in ById(answers) && ById(answers)[packet.questions[k].id] == packet.questions[k].recommendation
        ensures Fits(packet.questions[k], packet.questions[k].recommendation) <==> WellShaped(packet.questions[k])
        ensures UsesRecommendation(packet.questions[k], packet.questions[k].recommendation)
      {
        RecommendedValue(packet.questions, k);
        FitsWhenWellShaped(packet.questions[k]);
        UsesItself(packet.questions[k]);
      }
    }
  }

  lemma UsesItself(q: Question)
    requires Recommendable(q)
    ensures UsesRecommendation(q, q.recommendation)
  {
    MatchesIsSameKey(q.recommendation, q.recommendation);
  }

  lemma FitsWhenWellShaped(q: Question)
    requires Recommendable(q)
    ensures Fits(q, q.recommendation) <==> WellShaped(q)
  {
    var v := q.recommendation;
    if WellShaped(q) {
      var values := Selected(q, v).value;
      assert values == Recommended(q);
      forall i | 0 <= i < |values| ensures Offered(q, values[i]) {
        assert FirstIsLow(q, Recommended(q)[i]);
        LowRiskCarries(q, values[i], values[i]);
      }
    }
  }

  /** The comparison distinguishes types at the top but not below it, as the program's does. */
  lemma NestedNumbersAreLoose()
    ensures !Matches(Bool(true), Int(1)) && Matches(List([Bool(true)]), List([Int(1)]))
  {
  }
}
