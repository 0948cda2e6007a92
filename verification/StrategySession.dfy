/**
 The strategy invocation session of backend/strategy_runtime/runner.py and its
 two drivers.

 The strategy instance is a state machine that nothing is assumed about: its
 handler takes the instance state and a context to a new instance state and
 either validated intents or the digest of an error.  The manifest check and the
 content digest are arbitrary functions.  Contexts carry their parameters and
 their remaining content as canonical text.
 */
module StrategySession {
  import opened Wrappers

  datatype Context = Context(time: int, sequence: int, parameters: string, seed: int, body: string)

  datatype HandlerOutcome = Intents(intents: seq<string>) | Raised(errorDigest: string)

  datatype World<!S> = World(
    handler: (S, Context) -> (S, HandlerOutcome),
    admits: Context -> bool,
    digest: string -> string)

  datatype Answer = Succeeded(intents: seq<string>) | Rejected(reasons: set<string>) | Failed(errorDigest: string)

  datatype Key = Key(time: int, sequence: int)

  const MISMATCH := "context_manifest_mismatch"
  const NOT_MONOTONIC := "context_not_monotonic"
  const PARAMETERS_CHANGED := "context_parameters_changed"
  const SEED_CHANGED := "context_seed_changed"
  const UNAVAILABLE := "strategy session is unavailable"

  function KeyOf(c: Context): Key { Key(c.time, c.sequence) }

  // Tuple comparison by event time, then sequence.
  predicate Less(a: Key, b: Key) { a.time < b.time || (a.time == b.time && a.sequence < b.sequence) }

  // What a session remembers; `handled` lists every context its handler saw.
  datatype Session<S> = Session(
    reasons: set<string>, initError: Option<string>, strategy: Option<S>, failure: Option<string>,
    lastKey: Option<Key>, parameters: Option<string>, seed: Option<int>, handled: seq<Context>)

  // A session as its constructor leaves it.
  ghost predicate Unused<S>(s: Session<S>) {
    && s.failure.None? && s.lastKey.None? && s.parameters.None? && s.seed.None? && s.handled == []
    && NOT_MONOTONIC !in s.reasons
  }

  // The reason an available session turns a context away, if any.
  function Refusal<S>(w: World<S>, s: Session<S>, c: Context): Option<string> {
    if !w.admits(c) then Some(MISMATCH)
    else if s.lastKey.Some? && !Less(s.lastKey.value, KeyOf(c)) then Some(NOT_MONOTONIC)
    else if s.parameters.Some? && w.digest(c.parameters) != s.parameters.value then Some(PARAMETERS_CHANGED)
    else if s.seed.Some? && c.seed != s.seed.value then Some(SEED_CHANGED)
    else None
  }

  function Invoke<S>(w: World<S>, s: Session<S>, c: Context): (Session<S>, Answer) {
    if s.reasons != {} then (s, Rejected(s.reasons))
    else if s.failure.Some? then (s, Failed(s.failure.value))
    else if s.initError.Some? then (s, Failed(s.initError.value))
    else if s.strategy.None? then (s, Failed(UNAVAILABLE))
    else
      match Refusal(w, s, c)
      case Some(reason) => (s, Rejected({reason}))
      case None =>
        var (instance, outcome) := w.handler(s.strategy.value, c);
        var seen := s.(strategy := Some(instance), handled := s.handled + [c]);
        match outcome
        case Raised(e) => (seen.(failure := Some(e)), Failed(e))
        case Intents(intents) =>
          (seen.(lastKey := Some(KeyOf(c)), parameters := Some(w.digest(c.parameters)), seed := Some(c.seed)),
           Succeeded(intents))
  }

  // The session after a list of contexts, and its answers to them.
  function SessionAfter<S>(w: World<S>, s: Session<S>, contexts: seq<Context>): Session<S>
    decreases |contexts|
  {
    if contexts == [] then s else SessionAfter(w, Invoke(w, s, contexts[0]).0, contexts[1..])
  }

  function Answers<S>(w: World<S>, s: Session<S>, contexts: seq<Context>): (answers: seq<Answer>)
    ensures |answers| == |contexts|
    decreases |contexts|
  {
    if contexts == [] then []
    else var (next, answer) := Invoke(w, s, contexts[0]); [answer] + Answers(w, next, contexts[1..])
  }

  lemma {:induction false} AnswersSplit<S>(w: World<S>, s: Session<S>, front: seq<Context>, back: seq<Context>)
    ensures SessionAfter(w, s, front + back) == SessionAfter(w, SessionAfter(w, s, front), back)
    ensures Answers(w, s, front + back) == Answers(w, s, front) + Answers(w, SessionAfter(w, s, front), back)
    decreases |front|
  {
    if front == [] {
      assert front + back == back;
    } else {
      assert (front + back)[1..] == front[1..] + back;
      AnswersSplit(w, Invoke(w, s, front[0]).0, front[1..], back);
    }
  }

  // ---- laws of one session -------------------------------------------------------

  function Kept<T>(items: seq<T>, keep: seq<bool>): seq<T>
    requires |items| == |keep|
  {
    if items == [] then [] else (if keep[0] then [items[0]] else []) + Kept(items[1..], keep[1..])
  }

  lemma AnswersStep<S>(w: World<S>, s: Session<S>, c: Context, rest: seq<Context>)
    ensures var (next, answer) := Invoke(w, s, c);
      && Answers(w, s, [c] + rest) == [answer] + Answers(w, next, rest)
      && SessionAfter(w, s, [c] + rest) == SessionAfter(w, next, rest)
      && (answer.Rejected? ==> next == s)
  {
    assert ([c] + rest)[1..] == rest;
  }

  lemma KeptStep<T>(items: seq<T>, keep: seq<bool>)
    requires |items| == |keep| && items != []
    ensures Kept(items, keep) == (if keep[0] then [items[0]] else []) + Kept(items[1..], keep[1..])
  {
  }

  // Deleting any of the contexts that were answered REJECTED changes no other
  // answer and leaves the session in the same state.
  lemma {:induction false} RejectedLeaveNoTrace<S>(w: World<S>, s: Session<S>, contexts: seq<Context>, keep: seq<bool>)
    requires |keep| == |contexts|
    requires forall i | 0 <= i < |contexts| && !keep[i] :: Answers(w, s, contexts)[i].Rejected?
    ensures Answers(w, s, Kept(contexts, keep)) == Kept(Answers(w, s, contexts), keep)
    ensures SessionAfter(w, s, Kept(contexts, keep)) == SessionAfter(w, s, contexts)
    decreases |contexts|
  {
    if contexts != [] {
      var c, others := contexts[0], contexts[1..];
      var (next, answer) := Invoke(w, s, c);
      var rest := Answers(w, next, others);
      assert contexts == [c] + others;
      AnswersStep(w, s, c, others);
      forall i | 0 <= i < |rest| && !keep[1..][i] ensures rest[i].Rejected? {
        assert Answers(w, s, contexts)[i + 1] == rest[i];
      }
      RejectedLeaveNoTrace(w, next, others, keep[1..]);
      KeptStep(contexts, keep);
      KeptStep([answer] + rest, keep);
      assert ([answer] + rest)[1..] == rest;
      if keep[0] {
        AnswersStep(w, s, c, Kept(others, keep[1..]));
      } else {
        assert Answers(w, s, contexts)[0] == answer && next == s;
        assert Kept(contexts, keep) == Kept(others, keep[1..]);
        assert Kept([answer] + rest, keep) == Kept(rest, keep[1..]);
      }
    }
  }

  // After one FAILED answer every later answer is FAILED with the same digest and
  // the handler never runs again.
  lemma {:induction false} FailureIsFinal<S>(w: World<S>, s: Session<S>, c: Context, later: seq<Context>)
    requires Invoke(w, s, c).1.Failed?
    ensures var (after, answer) := Invoke(w, s, c);
      && SessionAfter(w, after, later) == after
      && forall i | 0 <= i < |later| :: Answers(w, after, later)[i] == answer
    decreases |later|
  {
    var (after, answer) := Invoke(w, s, c);
    if later != [] {
      assert Invoke(w, after, later[0]) == (after, answer);
      FailureIsFinal(w, after, later[0], later[1..]);
    }
  }

  // What the contexts accepted from now on have in common.
  lemma {:induction false} SucceededFollow<S>(w: World<S>, s: Session<S>, contexts: seq<Context>, i: nat)
    requires i < |contexts| && Answers(w, s, contexts)[i].Succeeded?
    ensures s.lastKey.Some? ==> Less(s.lastKey.value, KeyOf(contexts[i]))
    ensures s.parameters.Some? ==> w.digest(contexts[i].parameters) == s.parameters.value
    ensures s.seed.Some? ==> contexts[i].seed == s.seed.value
    decreases |contexts|
  {
    if i > 0 {
      SucceededFollow(w, Invoke(w, s, contexts[0]).0, contexts[1..], i - 1);
    }
  }

  // SUCCEEDED contexts have strictly increasing keys and share one parameters
  // digest and one seed, whatever is rejected between them.
  lemma {:induction false} SucceededAreOrdered<S>(w: World<S>, s: Session<S>, contexts: seq<Context>, i: nat, j: nat)
    requires i < j < |contexts|
    requires Answers(w, s, contexts)[i].Succeeded? && Answers(w, s, contexts)[j].Succeeded?
    ensures Less(KeyOf(contexts[i]), KeyOf(contexts[j]))
    ensures w.digest(contexts[i].parameters) == w.digest(contexts[j].parameters)
    ensures contexts[i].seed == contexts[j].seed
    decreases |contexts|
  {
    if i == 0 {
      SucceededFollow(w, Invoke(w, s, contexts[0]).0, contexts[1..], j - 1);
    } else {
      SucceededAreOrdered(w, Invoke(w, s, contexts[0]).0, contexts[1..], i - 1, j - 1);
    }
  }

  // ---- what a session answers -----------------------------------------------------

  // The strategy instance after it has handled a list of contexts, one on top of the
  // other.
  function Instance<S>(w: World<S>, start: S, handled: seq<Context>): S {
    if handled == [] then start
    else w.handler(Instance(w, start, handled[..|handled| - 1]), handled[|handled| - 1]).0
  }

  // The contexts that were not refused, up to the first that failed.
  function Handled(contexts: seq<Context>, answers: seq<Answer>): seq<Context>
    requires |contexts| == |answers|
  {
    if contexts == [] then []
    else
      var n := |contexts| - 1;
      Handled(contexts[..n], answers[..n])
      + (if answers[n].Rejected? || HasFailed(answers[..n]) then [] else [contexts[n]])
  }

  predicate HasFailed(answers: seq<Answer>) { exists i | 0 <= i < |answers| :: answers[i].Failed? }

  // The answer to a context by an instance that handled these contexts before, all of
  // them successfully: every handled context must be earlier, with the same parameters
  // digest and the same seed.
  ghost function Due<S>(w: World<S>, start: S, handled: seq<Context>, c: Context): Answer {
    if !w.admits(c) then Rejected({MISMATCH})
    else if exists a :: a in handled && !Less(KeyOf(a), KeyOf(c)) then Rejected({NOT_MONOTONIC})
    else if exists a :: a in handled && w.digest(a.parameters) != w.digest(c.parameters) then
      Rejected({PARAMETERS_CHANGED})
    else if exists a :: a in handled && a.seed != c.seed then Rejected({SEED_CHANGED})
    else
      match w.handler(Instance(w, start, handled), c).1
      case Intents(intents) => Succeeded(intents)
      case Raised(e) => Failed(e)
  }

  // A session that loaded its strategy and was not used yet.
  ghost predicate Ready<S>(s: Session<S>, start: S) {
    Unused(s) && s.reasons == {} && s.initError.None? && s.strategy == Some(start)
  }

  // What the checks of a session compare with is common to all contexts it handled.
  ghost predicate Remembers<S>(w: World<S>, s: Session<S>, handled: seq<Context>) {
    && (s.lastKey.None? <==> handled == []) && (s.parameters.None? <==> handled == [])
    && (s.seed.None? <==> handled == [])
    && (handled != [] ==> s.lastKey == Some(KeyOf(handled[|handled| - 1])))
    && (forall a | a in handled :: s.parameters == Some(w.digest(a.parameters)) && s.seed == Some(a.seed))
    && (forall a | a in handled :: KeyOf(a) == s.lastKey.value || Less(KeyOf(a), s.lastKey.value))
  }

  // Where a session stands after some contexts.
  ghost predicate Stands<S>(w: World<S>, s: Session<S>, start: S, contexts: seq<Context>, answers: seq<Answer>)
    requires |contexts| == |answers|
  {
    && s.reasons == {} && s.initError.None?
    && s.handled == Handled(contexts, answers) && s.strategy == Some(Instance(w, start, s.handled))
    && (if HasFailed(answers) then
          && s.failure.Some?
          && forall i | 0 <= i < |answers| && answers[i].Failed? :: answers[i] == Failed(s.failure.value)
        else s.failure.None? && Remembers(w, s, s.handled))
  }

  // A session that remembers what its contexts have in common refuses exactly what
  // does not go with all of them.
  lemma RefusalComparesAll<S>(w: World<S>, s: Session<S>, start: S, c: Context)
    requires s.reasons == {} && s.initError.None? && s.failure.None?
    requires s.strategy == Some(Instance(w, start, s.handled)) && Remembers(w, s, s.handled)
    ensures Invoke(w, s, c).1 == Due(w, start, s.handled, c)
  {
    if s.handled != [] {
      var last := s.handled[|s.handled| - 1];
      assert last in s.handled;
    }
  }

  // Handling one more context puts it on top.
  lemma HandlingStep<S>(w: World<S>, s: Session<S>, start: S, c: Context)
    requires s.reasons == {} && s.initError.None? && s.failure.None?
    requires s.strategy == Some(Instance(w, start, s.handled)) && Remembers(w, s, s.handled)
    ensures var (next, answer) := Invoke(w, s, c);
      && (answer.Rejected? ==> next == s)
      && (!answer.Rejected? ==>
            next.handled == s.handled + [c] && next.strategy == Some(Instance(w, start, next.handled)))
      && (answer.Succeeded? ==> next.failure.None? && Remembers(w, next, next.handled))
      && (answer.Failed? ==> next.failure == Some(answer.errorDigest))
  {
    var all := s.handled + [c];
    assert all[..|all| - 1] == s.handled && all[|all| - 1] == c;
  }

  lemma HandledSnoc(contexts: seq<Context>, answers: seq<Answer>, c: Context, answer: Answer)
    requires |contexts| == |answers|
    ensures Handled(contexts + [c], answers + [answer])
            == Handled(contexts, answers) + (if answer.Rejected? || HasFailed(answers) then [] else [c])
    ensures HasFailed(answers + [answer]) <==> HasFailed(answers) || answer.Failed?
  {
    var all, given := contexts + [c], answers + [answer];
    assert all[..|contexts|] == contexts && given[..|answers|] == answers && given[|answers|] == answer;
    assert forall i | 0 <= i < |answers| :: given[i] == answers[i];
  }

  lemma FailedStandsStep<S>(w: World<S>, s: Session<S>, start: S, contexts: seq<Context>, answers: seq<Answer>,
                            c: Context)
    requires |contexts| == |answers| && Stands(w, s, start, contexts, answers) && HasFailed(answers)
    ensures Invoke(w, s, c) == (s, Failed(s.failure.value))
    ensures Stands(w, s, start, contexts + [c], answers + [Failed(s.failure.value)])
  {
    var all := answers + [Failed(s.failure.value)];
    HandledSnoc(contexts, answers, c, Failed(s.failure.value));
    assert forall i | 0 <= i < |all| :: all[i] == if i < |answers| then answers[i] else Failed(s.failure.value);
  }

  lemma GoodStandsStep<S>(w: World<S>, s: Session<S>, start: S, contexts: seq<Context>, answers: seq<Answer>,
                          c: Context)
    requires |contexts| == |answers| && Stands(w, s, start, contexts, answers) && !HasFailed(answers)
    ensures var (next, answer) := Invoke(w, s, c);
      Stands(w, next, start, contexts + [c], answers + [answer])
  {
    var (next, answer) := Invoke(w, s, c);
    HandledSnoc(contexts, answers, c, answer);
    HandlingStep(w, s, start, c);
    assert next.reasons == {} && next.initError.None?;
    if answer.Failed? { OnlyFailure(answers, answer); }
  }

  lemma OnlyFailure(answers: seq<Answer>, answer: Answer)
    requires !HasFailed(answers)
    ensures forall i | 0 <= i < |answers + [answer]| && (answers + [answer])[i].Failed? ::
              (answers + [answer])[i] == answer
  {
    assert forall i | 0 <= i < |answers| :: (answers + [answer])[i] == answers[i];
  }

  lemma {:induction false} SessionStands<S>(w: World<S>, s: Session<S>, start: S, contexts: seq<Context>)
    requires Ready(s, start)
    ensures Stands(w, SessionAfter(w, s, contexts), start, contexts, Answers(w, s, contexts))
    decreases |contexts|
  {
    if contexts != [] {
      var n := |contexts| - 1;
      SessionStands(w, s, start, contexts[..n]);
      ExtendAnswers(w, s, contexts, n);
      var before, answers := SessionAfter(w, s, contexts[..n]), Answers(w, s, contexts[..n]);
      if HasFailed(answers) {
        FailedStandsStep(w, before, start, contexts[..n], answers, contexts[n]);
      } else {
        GoodStandsStep(w, before, start, contexts[..n], answers, contexts[n]);
      }
      assert contexts[..n] + [contexts[n]] == contexts == contexts[..n + 1];
    }
  }

  // The one instance is kept from event to event: after any contexts it is what its
  // handler makes of the handled ones in turn, and those are the contexts that were not
  // refused, up to the first failure.
  lemma InstanceIsKept<S>(w: World<S>, s: Session<S>, start: S, contexts: seq<Context>)
    requires Ready(s, start)
    ensures var later := SessionAfter(w, s, contexts);
      && later.handled == Handled(contexts, Answers(w, s, contexts))
      && later.strategy == Some(Instance(w, start, later.handled))
  {
    SessionStands(w, s, start, contexts);
  }

  // Every answer, exactly: until something fails, what is due to the context after the
  // contexts handled before it; then the failure again.
  lemma AnswersAreDue<S>(w: World<S>, s: Session<S>, start: S, contexts: seq<Context>, i: nat)
    requires Ready(s, start) && i < |contexts|
    ensures var answers := Answers(w, s, contexts);
      && (!HasFailed(answers[..i]) ==>
            answers[i] == Due(w, start, Handled(contexts[..i], answers[..i]), contexts[i]))
      && (forall j | 0 <= j < i && answers[j].Failed? :: answers[i] == answers[j])
  {
    AnswersPrefix(w, s, contexts, i);
    SessionStands(w, s, start, contexts[..i]);
    NextIsDue(w, SessionAfter(w, s, contexts[..i]), start, contexts[..i], Answers(w, s, contexts[..i]), contexts[i]);
    assert forall j | 0 <= j < i :: Answers(w, s, contexts)[..i][j] == Answers(w, s, contexts)[j];
  }

  lemma NextIsDue<S>(w: World<S>, s: Session<S>, start: S, before: seq<Context>, answers: seq<Answer>, c: Context)
    requires |before| == |answers| && Stands(w, s, start, before, answers)
    ensures var answer := Invoke(w, s, c).1;
      && (!HasFailed(answers) ==> answer == Due(w, start, Handled(before, answers), c))
      && (forall j | 0 <= j < |answers| && answers[j].Failed? :: answer == answers[j])
  {
    if !HasFailed(answers) { RefusalComparesAll(w, s, start, c); }
  }

  lemma AnswersPrefix<S>(w: World<S>, s: Session<S>, contexts: seq<Context>, i: nat)
    requires i < |contexts|
    ensures Answers(w, s, contexts)[..i] == Answers(w, s, contexts[..i])
    ensures Answers(w, s, contexts)[i] == Invoke(w, SessionAfter(w, s, contexts[..i]), contexts[i]).1
  {
    assert contexts == contexts[..i] + contexts[i..];
    AnswersSplit(w, s, contexts[..i], contexts[i..]);
  }

  // A session that never loaded a strategy answers everything alike and stays as it is.
  lemma {:induction false} UnreadyAnswers<S>(w: World<S>, s: Session<S>, contexts: seq<Context>, i: nat)
    requires Unused(s) && i < |contexts| && (s.reasons != {} || s.initError.Some? || s.strategy.None?)
    ensures Answers(w, s, contexts)[i]
            == if s.reasons != {} then Rejected(s.reasons)
               else if s.initError.Some? then Failed(s.initError.value) else Failed(UNAVAILABLE)
    ensures SessionAfter(w, s, contexts) == s
    decreases |contexts|
  {
    var others := contexts[1..];
    if others != [] { UnreadyAnswers(w, s, others, if i > 0 then i - 1 else 0); }
  }

  // ---- chronology ------------------------------------------------------------------

  ghost predicate Chronological(contexts: seq<Context>) {
    forall i, j | 0 <= i < j < |contexts| :: Less(KeyOf(contexts[i]), KeyOf(contexts[j]))
  }

  // The length of the longest chronological prefix.
  function OrderedLength(contexts: seq<Context>): (k: nat)
    ensures k <= |contexts|
    ensures k == 0 <==> contexts == []
    decreases |contexts|
  {
    if |contexts| <= 1 then |contexts|
    else if Less(KeyOf(contexts[0]), KeyOf(contexts[1])) then 1 + OrderedLength(contexts[1..])
    else 1
  }

  lemma {:induction false} OrderedLengthIsExact(contexts: seq<Context>)
    ensures Chronological(contexts[..OrderedLength(contexts)])
    ensures OrderedLength(contexts) < |contexts| ==>
              !Less(KeyOf(contexts[OrderedLength(contexts) - 1]), KeyOf(contexts[OrderedLength(contexts)]))
    ensures OrderedLength(contexts) == |contexts| <==> Chronological(contexts)
    decreases |contexts|
  {
    var k := OrderedLength(contexts);
    if |contexts| > 1 && Less(KeyOf(contexts[0]), KeyOf(contexts[1])) {
      OrderedLengthIsExact(contexts[1..]);
      var rest := contexts[1..][..k - 1];
      assert rest == contexts[1..k];
      assert forall i | 0 <= i < k - 1 :: contexts[..k][i + 1] == rest[i];
      forall i, j | 0 <= i < j < k ensures Less(KeyOf(contexts[..k][i]), KeyOf(contexts[..k][j])) {
        if i == 0 && j > 1 {
          assert Less(KeyOf(rest[0]), KeyOf(rest[j - 1]));
        } else if i > 0 {
          assert Less(KeyOf(rest[i - 1]), KeyOf(rest[j - 1]));
        }
      }
    }
    if k == |contexts| { assert contexts[..k] == contexts; }
  }

  lemma InOrder(contexts: seq<Context>, k: nat)
    requires 0 < k < |contexts|
    ensures k < OrderedLength(contexts) ==> Less(KeyOf(contexts[k - 1]), KeyOf(contexts[k]))
  {
    OrderedLengthIsExact(contexts);
    var n := OrderedLength(contexts);
    assert forall i | 0 <= i < n :: contexts[..n][i] == contexts[i];
  }

  // The order of whatever follows does not affect an ordered prefix.
  lemma {:induction false} OrderedPrefix(contexts: seq<Context>, n: nat)
    requires n <= |contexts|
    ensures OrderedLength(contexts[..n]) == if n <= OrderedLength(contexts) then n else OrderedLength(contexts)
    decreases |contexts|
  {
    if n > 1 && Less(KeyOf(contexts[0]), KeyOf(contexts[1])) {
      OrderedPrefix(contexts[1..], n - 1);
      assert contexts[..n][1..] == contexts[1..][..n - 1];
    }
  }

  // ---- drivers -----------------------------------------------------------------------

  // The answers up to and including the first one that is not SUCCEEDED.
  function UpToFirstStop(answers: seq<Answer>): (cut: seq<Answer>)
    ensures cut <= answers
  {
    if answers == [] then []
    else if answers[0].Succeeded? then [answers[0]] + UpToFirstStop(answers[1..])
    else [answers[0]]
  }

  ghost predicate AllSucceeded(answers: seq<Answer>) {
    forall i | 0 <= i < |answers| :: answers[i].Succeeded?
  }

  lemma {:induction false} CutFacts(answers: seq<Answer>)
    ensures var cut := UpToFirstStop(answers);
      && (forall i | 0 <= i < |cut| - 1 :: cut[i].Succeeded?)
      && (AllSucceeded(cut) <==> AllSucceeded(answers))
      && (AllSucceeded(answers) ==> cut == answers)
      && (!AllSucceeded(answers) ==> cut != [] && !cut[|cut| - 1].Succeeded?)
  {
    if answers != [] {
      CutFacts(answers[1..]);
      assert answers == [answers[0]] + answers[1..];
    }
  }

  lemma CutOfOne(first: Answer, rest: seq<Answer>)
    ensures UpToFirstStop([first] + rest) == if first.Succeeded? then [first] + UpToFirstStop(rest) else [first]
  {
    assert ([first] + rest)[1..] == rest;
  }

  lemma FirstOfConcat<T>(a: seq<T>, b: seq<T>)
    requires a != []
    ensures a + b == [a[0]] + (a[1..] + b)
  {
  }

  lemma OthersSucceeded(answers: seq<Answer>)
    requires answers != [] && AllSucceeded(answers)
    ensures answers[0].Succeeded? && AllSucceeded(answers[1..])
  {
    assert forall i | 0 <= i < |answers| - 1 :: answers[1..][i] == answers[i + 1];
  }

  lemma {:induction false} CutOfSuccesses(front: seq<Answer>, back: seq<Answer>)
    requires AllSucceeded(front)
    ensures UpToFirstStop(front + back) == front + UpToFirstStop(back)
    decreases |front|
  {
    if front == [] {
      assert front + back == back;
    } else {
      OthersSucceeded(front);
      CutOfSuccesses(front[1..], back);
      CutOfOne(front[0], front[1..] + back);
      FirstOfConcat(front, back);
      FirstOfConcat(front, UpToFirstStop(back));
    }
  }

  datatype BatchOutcome = BatchRefused | Results(answers: seq<Answer>)

  datatype StreamEnd = Ended | RaisedOutOfOrder | RaisedEmpty

  datatype StreamOutcome = Yielded(answers: seq<Answer>, end: StreamEnd)

  // run_strategy_events: nothing is invoked unless the whole list is in order.
  ghost function Batch<S>(w: World<S>, s: Session<S>, contexts: seq<Context>): BatchOutcome {
    if contexts == [] || !Chronological(contexts) then BatchRefused
    else Results(UpToFirstStop(Answers(w, s, contexts)))
  }

  // run_strategy_event_stream: the ordered prefix is invoked, one context at a
  // time, and the disorder is raised only when everything before it succeeded.
  ghost function Stream<S>(w: World<S>, s: Session<S>, contexts: seq<Context>): StreamOutcome {
    var k := OrderedLength(contexts);
    var answers := Answers(w, s, contexts[..k]);
    Yielded(UpToFirstStop(answers),
            if !AllSucceeded(answers) then Ended
            else if k < |contexts| then RaisedOutOfOrder
            else if contexts == [] then RaisedEmpty
            else Ended)
  }

  // On a non-empty chronological list the two drivers produce the same answers:
  // all but the last SUCCEEDED.
  lemma DriversAgree<S>(w: World<S>, s: Session<S>, contexts: seq<Context>)
    requires contexts != [] && Chronological(contexts)
    ensures Stream(w, s, contexts).end == Ended
    ensures Batch(w, s, contexts) == Results(Stream(w, s, contexts).answers)
    ensures var answers := Stream(w, s, contexts).answers;
      answers != [] && forall i | 0 <= i < |answers| - 1 :: answers[i].Succeeded?
  {
    OrderedLengthIsExact(contexts);
    assert contexts[..|contexts|] == contexts;
    CutFacts(Answers(w, s, contexts));
  }

  // A chronological list never meets the session's own order check.
  lemma {:induction false} OrderCheckIsIdle<S>(w: World<S>, s: Session<S>, contexts: seq<Context>, i: nat)
    requires Chronological(contexts) && i < |contexts| && NOT_MONOTONIC !in s.reasons
    requires s.lastKey.Some? ==> Less(s.lastKey.value, KeyOf(contexts[0]))
    ensures Answers(w, s, contexts)[i].Rejected? ==> NOT_MONOTONIC !in Answers(w, s, contexts)[i].reasons
    decreases |contexts|
  {
    var (next, answer) := Invoke(w, s, contexts[0]);
    assert Answers(w, s, contexts) == [answer] + Answers(w, next, contexts[1..]);
    if i > 0 {
      assert Less(KeyOf(contexts[0]), KeyOf(contexts[1]));
      assert Chronological(contexts[1..]) by {
        assert forall a | 0 <= a < |contexts| - 1 :: contexts[1..][a] == contexts[a + 1];
      }
      OrderCheckIsIdle(w, next, contexts[1..], i - 1);
    }
  }

  lemma DriversNeverReportDisorder<S>(w: World<S>, s: Session<S>, contexts: seq<Context>, i: nat)
    requires Unused(s) && i < |Stream(w, s, contexts).answers|
    ensures var answer := Stream(w, s, contexts).answers[i];
      answer.Rejected? ==> NOT_MONOTONIC !in answer.reasons
  {
    var k := OrderedLength(contexts);
    OrderedLengthIsExact(contexts);
    OrderCheckIsIdle(w, s, contexts[..k], i);
    assert Stream(w, s, contexts).answers <= Answers(w, s, contexts[..k]);
  }

  // On a list that is first out of order at k, the batch driver invokes nothing;
  // the stream driver yields the session's answers on the first k contexts, and
  // raises exactly when all of those succeeded.
  lemma DriversOnDisorder<S>(w: World<S>, s: Session<S>, contexts: seq<Context>, k: nat)
    requires 0 < k < |contexts| && Chronological(contexts[..k])
    requires !Less(KeyOf(contexts[k - 1]), KeyOf(contexts[k]))
    ensures Batch(w, s, contexts) == BatchRefused
    ensures Stream(w, s, contexts).answers == UpToFirstStop(Answers(w, s, contexts[..k]))
    ensures Stream(w, s, contexts).end == RaisedOutOfOrder <==> AllSucceeded(Answers(w, s, contexts[..k]))
  {
    OrderedLengthIsExact(contexts);
    OrderedLengthIsExact(contexts[..k]);
    OrderedPrefix(contexts, k);
    var n := OrderedLength(contexts);
    InOrder(contexts, k);
    assert n == k;
  }

  // ---- the exit status of main ---------------------------------------------------------

  datatype Exit = Exit(status: int, published: Option<seq<Answer>>)

  ghost function ExitOf(contexts: seq<Context>, answers: seq<Answer>): Exit {
    Exit(if |answers| == |contexts| && AllSucceeded(answers) then 0 else 2, Some(answers))
  }

  ghost function BatchExit<S>(w: World<S>, s: Session<S>, contexts: seq<Context>): Exit {
    match Batch(w, s, contexts)
    case BatchRefused => Exit(1, None)
    case Results(answers) => ExitOf(contexts, answers)
  }

  // The stream path without its verification pass: a stream that raises publishes
  // nothing, as results replace the destination only after the whole iterator ended.
  ghost function UnverifiedStreamExit<S>(w: World<S>, s: Session<S>, contexts: seq<Context>): Exit {
    var outcome := Stream(w, s, contexts);
    if outcome.end != Ended then Exit(1, None) else ExitOf(contexts, outcome.answers)
  }

  // The stream is decoded to its end once before anything runs, and the decoder
  // refuses an empty or disordered stream.
  ghost function StreamExit<S>(w: World<S>, s: Session<S>, contexts: seq<Context>): Exit {
    if contexts == [] || !Chronological(contexts) then Exit(1, None) else UnverifiedStreamExit(w, s, contexts)
  }

  // Both paths of main end alike on every request.  Status 0 means that every
  // context of a non-empty ordered request succeeded and that all the answers were
  // published, and nothing less yields it.
  lemma ExitsAgree<S>(w: World<S>, s: Session<S>, contexts: seq<Context>)
    ensures BatchExit(w, s, contexts) == StreamExit(w, s, contexts)
    ensures StreamExit(w, s, contexts).status == 0
            <==> contexts != [] && Chronological(contexts) && AllSucceeded(Answers(w, s, contexts))
    ensures StreamExit(w, s, contexts).status == 0 ==>
            StreamExit(w, s, contexts).published == Some(Answers(w, s, contexts))
  {
    OrderedLengthIsExact(contexts);
    CutFacts(Answers(w, s, contexts));
    assert contexts[..|contexts|] == contexts;
  }

  // What each status means, on either path: 1 for a request that is empty or out of
  // order, with nothing published; 2 when some context did not succeed, with the answers
  // up to the first such context published.
  lemma StatusesMean<S>(w: World<S>, s: Session<S>, contexts: seq<Context>)
    ensures var exit, answers := StreamExit(w, s, contexts), Answers(w, s, contexts);
      if contexts == [] || !Chronological(contexts) then exit == Exit(1, None)
      else if AllSucceeded(answers) then exit == Exit(0, Some(answers))
      else
        && exit.status == 2 && exit.published.Some? && exit.published.value <= answers
        && var n := |exit.published.value| - 1;
        && n >= 0 && !answers[n].Succeeded? && forall i | 0 <= i < n :: answers[i].Succeeded?
  {
    OrderedLengthIsExact(contexts);
    CutFacts(Answers(w, s, contexts));
    assert contexts[..|contexts|] == contexts;
  }

  // The agreement rests on the verification pass: without it the paths would
  // differ on exactly the requests that are out of order after a context that did
  // not succeed, where the stream driver yields a typed refusal and the batch
  // driver none.
  lemma VerificationPassMattersIff<S>(w: World<S>, s: Session<S>, contexts: seq<Context>)
    ensures BatchExit(w, s, contexts) == UnverifiedStreamExit(w, s, contexts)
            <==> Chronological(contexts) || AllSucceeded(Answers(w, s, contexts[..OrderedLength(contexts)]))
  {
    OrderedLengthIsExact(contexts);
    var k := OrderedLength(contexts);
    CutFacts(Answers(w, s, contexts[..k]));
    if k == |contexts| { assert contexts[..k] == contexts; }
  }

  // ---- the code -----------------------------------------------------------------------------

  class StrategyInvocationSession<S> {
    const world: World<S>
    const reasons: set<string>
    const initError: Option<string>
    var strategy: Option<S>
    var failure: Option<string>
    var lastKey: Option<Key>
    var parameters: Option<string>
    var seed: Option<int>
    ghost var handled: seq<Context>

    ghost function State(): Session<S>
      reads this
    {
      Session(reasons, initError, strategy, failure, lastKey, parameters, seed, handled)
    }

    // `loaded` is what preflight and loading produced: static rejection reasons,
    // a loading error, or a strategy instance.
    constructor (world: World<S>, reasons: set<string>, initError: Option<string>, loaded: Option<S>)
      ensures this.world == world
      ensures State() == Session(reasons, initError, loaded, None, None, None, None, [])
    {
      this.world, this.reasons, this.initError, this.strategy := world, reasons, initError, loaded;
      failure, lastKey, parameters, seed, handled := None, None, None, None, [];
    }

    method InvokeNext(c: Context) returns (answer: Answer)
      modifies this
      ensures (State(), answer) == Invoke(world, old(State()), c)
    {
      if reasons != {} {
        return Rejected(reasons);
      }
      if failure.Some? {
        return Failed(failure.value);
      }
      if initError.Some? || strategy.None? {
        return Failed(if initError.Some? then initError.value else UNAVAILABLE);
      }
      if !world.admits(c) {
        return Rejected({MISMATCH});
      }
      var key := KeyOf(c);
      if lastKey.Some? && !Less(lastKey.value, key) {
        return Rejected({NOT_MONOTONIC});
      }
      var parametersDigest := world.digest(c.parameters);
      if parameters.Some? && parametersDigest != parameters.value {
        return Rejected({PARAMETERS_CHANGED});
      }
      if seed.Some? && c.seed != seed.value {
        return Rejected({SEED_CHANGED});
      }
      var (instance, outcome) := world.handler(strategy.value, c);
      strategy := Some(instance);
      handled := handled + [c];
      match outcome {
        case Raised(e) =>
          failure := Some(e);
          answer := Failed(e);
        case Intents(intents) =>
          lastKey := Some(key);
          parameters := Some(parametersDigest);
          seed := Some(c.seed);
          answer := Succeeded(intents);
      }
    }
  }

  method CheckChronology(contexts: seq<Context>) returns (ordered: bool)
    ensures ordered <==> Chronological(contexts)
  {
    OrderedLengthIsExact(contexts);
    var previous: Option<Key> := None;
    for k := 0 to |contexts|
      invariant previous == if k == 0 then None else Some(KeyOf(contexts[k - 1]))
      invariant OrderedLength(contexts[..k]) == k
    {
      var key := KeyOf(contexts[k]);
      if previous.Some? && !Less(previous.value, key) {
        return false;
      }
      ExtendOrder(contexts, k);
      previous := Some(key);
    }
    assert contexts[..|contexts|] == contexts;
    ordered := true;
  }

  // One more context in order extends the ordered prefix.
  lemma ExtendOrder(contexts: seq<Context>, k: nat)
    requires k < |contexts| && OrderedLength(contexts[..k]) == k
    requires k > 0 ==> Less(KeyOf(contexts[k - 1]), KeyOf(contexts[k]))
    ensures OrderedLength(contexts[..k + 1]) == k + 1
  {
    OrderedPrefix(contexts, k);
    OrderedPrefix(contexts, k + 1);
    OrderedLengthIsExact(contexts);
  }

  // One more success extends the answers of a session by one.
  lemma ExtendAnswers<S>(w: World<S>, s: Session<S>, contexts: seq<Context>, k: nat)
    requires k < |contexts|
    ensures var (next, answer) := Invoke(w, SessionAfter(w, s, contexts[..k]), contexts[k]);
      && SessionAfter(w, s, contexts[..k + 1]) == next
      && Answers(w, s, contexts[..k + 1]) == Answers(w, s, contexts[..k]) + [answer]
  {
    assert contexts[..k + 1] == contexts[..k] + [contexts[k]];
    AnswersSplit(w, s, contexts[..k], [contexts[k]]);
    var after := SessionAfter(w, s, contexts[..k]);
    assert Answers(w, after, [contexts[k]]) == [Invoke(w, after, contexts[k]).1];
  }

  // Stopping at the first answer that is not SUCCEEDED yields the cut of all answers.
  lemma StopAt<S>(w: World<S>, s: Session<S>, contexts: seq<Context>, k: nat)
    requires k < |contexts| && AllSucceeded(Answers(w, s, contexts[..k]))
    requires !Invoke(w, SessionAfter(w, s, contexts[..k]), contexts[k]).1.Succeeded?
    ensures UpToFirstStop(Answers(w, s, contexts)) == Answers(w, s, contexts[..k + 1])
    ensures !AllSucceeded(Answers(w, s, contexts))
  {
    assert contexts == contexts[..k] + contexts[k..];
    AnswersSplit(w, s, contexts[..k], contexts[k..]);
    ExtendAnswers(w, s, contexts, k);
    var tail := Answers(w, SessionAfter(w, s, contexts[..k]), contexts[k..]);
    assert tail[0] == Invoke(w, SessionAfter(w, s, contexts[..k]), contexts[k]).1;
    CutOfSuccesses(Answers(w, s, contexts[..k]), tail);
    assert Answers(w, s, contexts)[k] == tail[0];
  }

  method RunStrategyEvents<S>(w: World<S>, reasons: set<string>, initError: Option<string>, loaded: Option<S>,
                              contexts: seq<Context>) returns (outcome: BatchOutcome)
    ensures outcome == Batch(w, Session(reasons, initError, loaded, None, None, None, None, []), contexts)
  {
    if contexts == [] {
      return BatchRefused;
    }
    var ordered := CheckChronology(contexts);
    if !ordered {
      return BatchRefused;
    }
    var session := new StrategyInvocationSession(w, reasons, initError, loaded);
    ghost var s := session.State();
    var results: seq<Answer> := [];
    for k := 0 to |contexts|
      invariant session.State() == SessionAfter(w, s, contexts[..k])
      invariant results == Answers(w, s, contexts[..k]) && AllSucceeded(results)
    {
      ExtendAnswers(w, s, contexts, k);
      var answer := session.InvokeNext(contexts[k]);
      results := results + [answer];
      if !answer.Succeeded? {
        StopAt(w, s, contexts, k);
        return Results(results);
      }
    }
    assert contexts[..|contexts|] == contexts;
    CutFacts(Answers(w, s, contexts));
    outcome := Results(results);
  }

  // The stream ends with the first answer that is not SUCCEEDED ...
  lemma StreamStopsAt<S>(w: World<S>, s: Session<S>, contexts: seq<Context>, k: nat)
    requires k < OrderedLength(contexts) && AllSucceeded(Answers(w, s, contexts[..k]))
    requires !Invoke(w, SessionAfter(w, s, contexts[..k]), contexts[k]).1.Succeeded?
    ensures Stream(w, s, contexts) == Yielded(Answers(w, s, contexts[..k + 1]), Ended)
  {
    var ordered := contexts[..OrderedLength(contexts)];
    assert ordered[..k] == contexts[..k] && ordered[..k + 1] == contexts[..k + 1];
    StopAt(w, s, ordered, k);
  }

  // ... or else where the order does.
  lemma StreamRunsOut<S>(w: World<S>, s: Session<S>, contexts: seq<Context>, k: nat)
    requires k == OrderedLength(contexts) && AllSucceeded(Answers(w, s, contexts[..k]))
    ensures Stream(w, s, contexts)
            == Yielded(Answers(w, s, contexts[..k]),
                       if k < |contexts| then RaisedOutOfOrder else if contexts == [] then RaisedEmpty else Ended)
  {
    CutFacts(Answers(w, s, contexts[..k]));
  }

  method RunStrategyEventStream<S>(w: World<S>, reasons: set<string>, initError: Option<string>, loaded: Option<S>,
                                   contexts: seq<Context>) returns (outcome: StreamOutcome)
    ensures outcome == Stream(w, Session(reasons, initError, loaded, None, None, None, None, []), contexts)
  {
    var session := new StrategyInvocationSession(w, reasons, initError, loaded);
    ghost var s := session.State();
    var previous: Option<Key> := None;
    var yielded: seq<Answer> := [];
    OrderedLengthIsExact(contexts);
    for k := 0 to |contexts|
      invariant previous == if k == 0 then None else Some(KeyOf(contexts[k - 1]))
      invariant k <= OrderedLength(contexts)
      invariant session.State() == SessionAfter(w, s, contexts[..k])
      invariant yielded == Answers(w, s, contexts[..k]) && AllSucceeded(yielded)
    {
      var key := KeyOf(contexts[k]);
      if k > 0 { InOrder(contexts, k); }
      if previous.Some? && !Less(previous.value, key) {
        StreamRunsOut(w, s, contexts, k);
        return Yielded(yielded, RaisedOutOfOrder);
      }
      previous := Some(key);
      ExtendAnswers(w, s, contexts, k);
      var answer := session.InvokeNext(contexts[k]);
      yielded := yielded + [answer];
      if !answer.Succeeded? {
        StreamStopsAt(w, s, contexts, k);
        return Yielded(yielded, Ended);
      }
    }
    StreamRunsOut(w, s, contexts, |contexts|);
    outcome := Yielded(yielded, if contexts == [] then RaisedEmpty else Ended);
  }
}
