/** The gate in plain terms: exactly which answers are accepted, which error the others get, and what an agent may be left with. */
module AgentGateAnswers {
  import opened Wrappers
  import opened AgentGate

  /** The answer given for a question, when each identifier is answered once. */
  predicate AnsweredOnce(questions: seq<Question>, answers: seq<Answer>) {
    && (forall i, j :: 0 <= i < j < |answers| ==> answers[i].id != answers[j].id)
    && (forall i :: 0 <= i < |answers| ==> AskedFor(questions, answers[i].id))
    && (forall k :: 0 <= k < |questions| ==> AnswerGiven(answers, questions[k].id))
  }

  predicate AskedFor(questions: seq<Question>, id: string) {
    exists k :: 0 <= k < |questions| && questions[k].id == id
  }

  predicate AnswerGiven(answers: seq<Answer>, id: string) {
    exists i :: 0 <= i < |answers| && answers[i].id == id
  }

  /** A question asks for a list exactly if it says so. */
  predicate AsksForList(q: Question) {
    q.mode == Some(MULTIPLE)
  }

  /** The values an answer chooses. */
  function Values(q: Question, v: Value): seq<Value> {
    if AsksForList(q) && v.List? then v.items else [v]
  }

  /** One of the values on offer, compared by type and amount. */
  predicate OnOffer(q: Question, v: Value) {
    exists o :: 0 <= o < |q.options| && KeyOf(q.options[o].value) == KeyOf(v)
  }

  /** A list where a list is asked for and only there, as many values as allowed, and all of them offered. */
  predicate RightShape(q: Question, v: Value) {
    && (v.List? <==> AsksForList(q))
    && q.least <= |Values(q, v)| <= q.most
    && (|q.options| > 0 ==> forall i :: 0 <= i < |Values(q, v)| ==> OnOffer(q, Values(q, v)[i]))
  }

  /** The recommendation again: the same value, or the same values in any order. */
  predicate Repeats(q: Question, v: Value) {
    if AsksForList(q) then v.List? && q.recommendation.List? && multiset(Keys(v.items)) == multiset(Keys(q.recommendation.items))
    else KeyOf(v) == KeyOf(q.recommendation)
  }

  lemma OfferedIs(q: Question, v: Value)
    ensures Offered(q, v) <==> OnOffer(q, v)
  {
    forall o | 0 <= o < |q.options| ensures Matches(v, q.options[o].value) <==> KeyOf(q.options[o].value) == KeyOf(v) {
      MatchesIsSameKey(v, q.options[o].value);
    }
    hide Matches, KeyOf;
  }

  lemma FitsIs(q: Question, v: Value)
    ensures Fits(q, v) <==> RightShape(q, v)
  {
    hide Offered, OnOffer;
    assert EffectiveMode(q) == MULTIPLE <==> AsksForList(q);
    assert Selected(q, v).Some? <==> (v.List? <==> AsksForList(q));
    if Selected(q, v).Some? {
      assert Selected(q, v).value == Values(q, v);
      forall i | 0 <= i < |Values(q, v)| ensures Offered(q, Values(q, v)[i]) <==> OnOffer(q, Values(q, v)[i]) { OfferedIs(q, Values(q, v)[i]); }
    }
  }

  lemma UsesIs(q: Question, v: Value)
    ensures UsesRecommendation(q, v) <==> Repeats(q, v)
  {
    MatchesIsSameKey(v, q.recommendation);
    hide Matches, KeyOf;
  }

  lemma CompleteIs(packet: Packet, answers: seq<Answer>)
    ensures Complete(packet, answers) <==> AnsweredOnce(packet.questions, answers)
  {
    hide ById, Required, AskedFor, AnswerGiven;
    OnceIsFull(answers);
    var given, asked := ById(answers).Keys, Required(packet.questions);
    forall id ensures (id in given <==> AnswerGiven(answers, id)) && (id in asked <==> AskedFor(packet.questions, id)) {
      KeysAreIds(answers, id);
      RequiredAreIds(packet.questions, id);
    }
    forall i | 0 <= i < |answers| ensures AnswerGiven(answers, answers[i].id) { GivenItself(answers, i); }
    forall k | 0 <= k < |packet.questions| ensures AskedFor(packet.questions, packet.questions[k].id) { AskedItself(packet.questions, k); }
    if AnsweredOnce(packet.questions, answers) {
      forall id | id in given ensures id in asked { GivenSome(answers, id); }
      forall id | id in asked ensures id in given { AskedSome(packet.questions, id); }
      assert given == asked;
    }
  }

  lemma GivenItself(answers: seq<Answer>, i: nat)
    requires i < |answers|
    ensures AnswerGiven(answers, answers[i].id)
  {
  }

  lemma AskedItself(questions: seq<Question>, k: nat)
    requires k < |questions|
    ensures AskedFor(questions, questions[k].id)
  {
  }

  lemma GivenSome(answers: seq<Answer>, id: string)
    requires AnswerGiven(answers, id)
    ensures exists i :: 0 <= i < |answers| && answers[i].id == id
  {
  }

  lemma AskedSome(questions: seq<Question>, id: string)
    requires AskedFor(questions, id)
    ensures exists k :: 0 <= k < |questions| && questions[k].id == id
  {
  }

  lemma KeysAreIds(answers: seq<Answer>, id: string)
    ensures id in ById(answers).Keys <==> AnswerGiven(answers, id)
  {
    IdAmong(answers, id);
  }

  lemma RequiredAreIds(questions: seq<Question>, id: string)
    ensures id in Required(questions) <==> AskedFor(questions, id)
  {
  }

  /** No answer is replaced exactly if identifiers are distinct; then each has its own answer. */
  lemma {:induction false} OnceIsFull(answers: seq<Answer>)
    ensures |ById(answers)| <= |answers|
    ensures |ById(answers)| == |answers| <==> forall i, j :: 0 <= i < j < |answers| ==> answers[i].id != answers[j].id
    ensures |ById(answers)| == |answers| ==> forall i :: 0 <= i < |answers| ==> answers[i].id in ById(answers) && ById(answers)[answers[i].id] == answers[i].value
  {
    if answers != [] {
      var n := |answers| - 1;
      var init, last := answers[..n], answers[n];
      OnceIsFull(init);
      IdAmong(init, last.id);
      var before := ById(init);
      assert ById(answers) == before[last.id := last.value];
      if last.id in before {
        assert before[last.id := last.value].Keys == before.Keys;
        SameKeysSameSize(before, before[last.id := last.value]);
        var i :| 0 <= i < n && init[i].id == last.id;
        assert answers[i].id == answers[n].id;
      } else {
        assert before[last.id := last.value].Keys == before.Keys + {last.id};
        OneMoreKey(before, last.id, last.value);
        forall i | 0 <= i < n ensures answers[i].id != last.id { assert init[i] == answers[i]; }
        assert forall i :: 0 <= i < n ==> answers[i] == init[i];
      }
    }
  }

  lemma SameKeysSameSize(m: map<string, Value>, m': map<string, Value>)
    requires m.Keys == m'.Keys
    ensures |m| == |m'|
  {
    assert |m| == |m.Keys| && |m'| == |m'.Keys|;
  }

  /** The actors that may answer a packet of each policy; the development actor may answer any. */
  predicate MayAnswer(packet: Packet, actor: Actor) {
    || actor == DEVELOPMENT
    || packet.policy == AGENT_ALLOWED
    || (packet.policy == HUMAN_REQUIRED && actor == HUMAN)
  }

  predicate AllRight(packet: Packet, answers: seq<Answer>) {
    forall k, i :: 0 <= k < |packet.questions| && 0 <= i < |answers| && answers[i].id == packet.questions[k].id ==>
      RightShape(packet.questions[k], answers[i].value)
  }

  predicate AllRepeat(packet: Packet, answers: seq<Answer>) {
    forall k, i :: 0 <= k < |packet.questions| && 0 <= i < |answers| && answers[i].id == packet.questions[k].id ==>
      Repeats(packet.questions[k], answers[i].value)
  }

  /**
    The verdict on any answer: refused for the actor, for not answering each question once, for a wrong
    shape, or, where an agent or a service answers a packet open to agents, for leaving the
    recommendation; accepted otherwise, with the answers as they were given.
  */
  lemma VerdictIs(packet: Packet, actor: Actor, answers: seq<Answer>)
    ensures var r := Accept(packet, actor, answers);
      if !MayAnswer(packet, actor) then r == Err(if packet.policy == APPROVAL_REQUIRED then ApprovalRequired else HumanDecisionRequired)
      else if !AnsweredOnce(packet.questions, answers) then r == Err(IncompleteWaitSet)
      else if !AllRight(packet, answers) then r == Err(InvalidAnswer)
      else if (actor == AGENT || actor == SERVICE) && packet.policy == AGENT_ALLOWED && !AllRepeat(packet, answers) then r == Err(MustUseRecommendation)
      else r.Ok? && (forall i :: 0 <= i < |answers| ==> answers[i].id in r.value && r.value[answers[i].id] == answers[i].value)
             && (forall id :: id in r.value ==> AnswerGiven(answers, id))
  {
    hide ById, Complete, AnsweredOnce, Fits, RightShape, UsesRecommendation, Repeats, AllRight, AllRepeat, Required;
    CompleteIs(packet, answers);
    if Complete(packet, answers) {
      FullHasAll(packet, answers);
      OnceIsFull(answers);
      forall id ensures id in ById(answers).Keys <==> AnswerGiven(answers, id) { KeysAreIds(answers, id); }
      SomeMisfits(packet, answers);
      SomeDeparts(packet, answers);
    }
  }

  lemma FullHasAll(packet: Packet, answers: seq<Answer>)
    requires Complete(packet, answers)
    ensures |ById(answers)| == |answers|
    ensures forall k :: 0 <= k < |packet.questions| ==> packet.questions[k].id in ById(answers)
  {
    hide ById;
  }

  lemma SomeMisfits(packet: Packet, answers: seq<Answer>)
    requires Complete(packet, answers)
    ensures (exists k :: 0 <= k < |packet.questions| && packet.questions[k].id in ById(answers)
              && !Fits(packet.questions[k], ById(answers)[packet.questions[k].id])) <==> !AllRight(packet, answers)
  {
    hide ById, Complete, Fits, RightShape;
    FullHasAll(packet, answers);
    OnceIsFull(answers);
    forall id ensures id in ById(answers).Keys <==> AnswerGiven(answers, id) { KeysAreIds(answers, id); }
    forall k, i | 0 <= k < |packet.questions| && 0 <= i < |answers| && answers[i].id == packet.questions[k].id
      ensures Fits(packet.questions[k], ById(answers)[packet.questions[k].id]) <==> RightShape(packet.questions[k], answers[i].value) {
      FitsIs(packet.questions[k], answers[i].value);
    }
    if k :| 0 <= k < |packet.questions| && !Fits(packet.questions[k], ById(answers)[packet.questions[k].id]) {
      assert packet.questions[k].id in ById(answers).Keys;
      var i :| 0 <= i < |answers| && answers[i].id == packet.questions[k].id;
    }
  }

  lemma SomeDeparts(packet: Packet, answers: seq<Answer>)
    requires Complete(packet, answers)
    ensures (exists k :: 0 <= k < |packet.questions| && packet.questions[k].id in ById(answers)
              && !UsesRecommendation(packet.questions[k], ById(answers)[packet.questions[k].id])) <==> !AllRepeat(packet, answers)
  {
    hide ById, Complete, UsesRecommendation, Repeats;
    FullHasAll(packet, answers);
    OnceIsFull(answers);
    forall id ensures id in ById(answers).Keys <==> AnswerGiven(answers, id) { KeysAreIds(answers, id); }
    forall k, i | 0 <= k < |packet.questions| && 0 <= i < |answers| && answers[i].id == packet.questions[k].id
      ensures UsesRecommendation(packet.questions[k], ById(answers)[packet.questions[k].id]) <==> Repeats(packet.questions[k], answers[i].value) {
      UsesIs(packet.questions[k], answers[i].value);
    }
    if k :| 0 <= k < |packet.questions| && !UsesRecommendation(packet.questions[k], ById(answers)[packet.questions[k].id]) {
      assert packet.questions[k].id in ById(answers).Keys;
      var i :| 0 <= i < |answers| && answers[i].id == packet.questions[k].id;
    }
  }

  // ---------------------------------------------------------------- what is left to agents

  /** The first option that has this value is one of low risk. */
  predicate FirstOptionIsLow(q: Question, v: Value) {
    exists o :: 0 <= o < |q.options| && KeyOf(q.options[o].value) == KeyOf(v) && q.options[o].risk == LOW
      && forall j :: 0 <= j < o ==> KeyOf(q.options[j].value) != KeyOf(v)
  }

  /** A question without a doubtful recommendation: there is one, and each of its values is first offered at low risk. */
  predicate WithoutDoubt(q: Question) {
    && q.recommendation != Null && |q.options| > 0
    && if AsksForList(q) then q.recommendation.List? && forall i :: 0 <= i < |q.recommendation.items| ==> FirstOptionIsLow(q, q.recommendation.items[i])
       else FirstOptionIsLow(q, q.recommendation)
  }

  lemma FirstIsLowIs(q: Question, v: Value)
    ensures FirstIsLow(q, v) <==> FirstOptionIsLow(q, v)
  {
    forall o | 0 <= o < |q.options| ensures Matches(q.options[o].value, v) <==> KeyOf(q.options[o].value) == KeyOf(v) {
      MatchesIsSameKey(q.options[o].value, v);
    }
    hide Matches, KeyOf;
  }

  /** The policy leaves exactly such questions to agents. */
  lemma RecommendableIs(q: Question)
    ensures Recommendable(q) <==> WithoutDoubt(q)
  {
    hide FirstIsLow, FirstOptionIsLow;
    forall i | 0 <= i < |Recommended(q)| ensures FirstIsLow(q, Recommended(q)[i]) <==> FirstOptionIsLow(q, Recommended(q)[i]) {
      FirstIsLowIs(q, Recommended(q)[i]);
    }
    if AsksForList(q) {
      assert q.recommendation.List? ==> Recommended(q) == q.recommendation.items;
      if Recommendable(q) {
        forall i | 0 <= i < |q.recommendation.items| ensures FirstOptionIsLow(q, q.recommendation.items[i]) {
          assert FirstIsLow(q, Recommended(q)[i]);
        }
      }
    } else {
      assert Recommended(q) == [q.recommendation] && Recommended(q)[0] == q.recommendation;
    }
  }

  /** Every value of an accepted answer of an agent or a service is on offer at low risk. */
  lemma AgentsChooseLowRisk(packet: Packet, actor: Actor, answers: seq<Answer>, k: nat, i: nat)
    requires (actor == AGENT || actor == SERVICE) && Accept(packet, actor, answers).Ok?
    requires packet.policy == AGENT_ALLOWED ==> forall j :: 0 <= j < |packet.questions| ==> WithoutDoubt(packet.questions[j])
    requires k < |packet.questions| && i < |answers| && answers[i].id == packet.questions[k].id
    ensures var q := packet.questions[k];
      forall n :: 0 <= n < |Values(q, answers[i].value)| ==>
        exists o :: 0 <= o < |q.options| && KeyOf(q.options[o].value) == KeyOf(Values(q, answers[i].value)[n]) && q.options[o].risk == LOW
  {
    hide Accept, RightShape, Keys, KeyOf;
    VerdictIs(packet, actor, answers);
    var q, v := packet.questions[k], answers[i].value;
    assert WithoutDoubt(q) && Repeats(q, v) && RightShape(q, v);
    ShapeIs(q, v);
    forall n | 0 <= n < |Values(q, v)|
      ensures exists o :: 0 <= o < |q.options| && KeyOf(q.options[o].value) == KeyOf(Values(q, v)[n]) && q.options[o].risk == LOW {
      if AsksForList(q) {
        var j := MemberOfMultiset(v.items, q.recommendation.items, n);
        assert FirstOptionIsLow(q, q.recommendation.items[j]);
      }
    }
  }

  lemma ShapeIs(q: Question, v: Value)
    requires RightShape(q, v)
    ensures v.List? <==> AsksForList(q)
  {
  }

  /** A boolean counts as one or zero among numbers, and is still told from them at the top. */
  lemma BooleansCount(b: bool, n: int)
    ensures Equal(Bool(b), Int(n)) <==> n == if b then 1 else 0
    ensures Equal(Bool(b), Float(n as real)) <==> n == if b then 1 else 0
    ensures Equal(Int(n), Float(n as real)) && !Matches(Bool(b), Int(n)) && !Matches(Int(n), Float(n as real))
  {
  }
}
