/** Question-by-question navigation of the quiz (src/components/QuizScreen.tsx).
    The answer value type is left generic: the screen stores whatever the
    answer buttons hand it. */
module QuizScreen {

  /** The screen's state: the current question's position and the answers so far, by question id. */
  datatype Nav<V> = Nav(index: nat, answers: map<int, V>)

  /** What an event leads to: the screen goes on, hands the answers over
      (`onComplete`), or is left (`onBack`). */
  datatype Outcome<V> = Stay(nav: Nav<V>) | Completed(answers: map<int, V>) | BackOut

  /** The index points at a question of the session. */
  predicate ValidNav<V>(ids: seq<int>, n: Nav<V>) {
    n.index < |ids|
  }

  /** The state the screen mounts with. */
  function Initial<V>(): Nav<V> {
    Nav(0, map[])
  }

  /** `handleAnswer(value)`, with the delayed advance taken at once: the
      value is stored under the current question's id; the screen moves to
      the next question, or hands over the answers after the last. */
  function HandleAnswer<V>(ids: seq<int>, n: Nav<V>, value: V): (r: Outcome<V>)
    requires ValidNav(ids, n)
    ensures r.Stay? || r.Completed?
    ensures r.Stay? <==> n.index < |ids| - 1
    ensures r.Stay? ==> r.nav.index == n.index + 1 && ValidNav(ids, r.nav)
    ensures var stored := if r.Stay? then r.nav.answers else r.answers;
            && ids[n.index] in stored && stored[ids[n.index]] == value
            && (forall id | id != ids[n.index] :: (id in stored <==> id in n.answers))
            && (forall id | id != ids[n.index] && id in n.answers :: stored[id] == n.answers[id])
  {
    var newAnswers := n.answers[ids[n.index] := value];
    if n.index < |ids| - 1 then Stay(Nav(n.index + 1, newAnswers)) else Completed(newAnswers)
  }

  /** `handlePrev`: one question back with the answers kept, or leave the
      quiz from the first question. */
  function HandlePrev<V>(ids: seq<int>, n: Nav<V>): (r: Outcome<V>)
    requires ValidNav(ids, n)
    ensures r.BackOut? <==> n.index == 0
    ensures r.Stay? ==> r.nav.index == n.index - 1 && r.nav.answers == n.answers && ValidNav(ids, r.nav)
    ensures !r.Completed?
  {
    if n.index > 0 then Stay(Nav(n.index - 1, n.answers)) else BackOut
  }

  /** Going back after answering a question that is not the last returns to
      it, with the new answer kept. */
  lemma AnswerThenBack<V>(ids: seq<int>, n: Nav<V>, value: V)
    requires ValidNav(ids, n) && n.index < |ids| - 1
    ensures var a := HandleAnswer(ids, n, value);
            a.Stay? && HandlePrev(ids, a.nav) == Stay(Nav(n.index, n.answers[ids[n.index] := value]))
  {
  }

  /** A user's action on the screen. */
  datatype Event<V> = AnswerWith(value: V) | Prev

  /** The outcome of a series of actions; the screen is gone once it has
      handed the answers over or been left, so later actions are not seen. */
  function Run<V>(ids: seq<int>, n: Nav<V>, events: seq<Event<V>>): (r: Outcome<V>)
    requires ValidNav(ids, n)
    ensures r.Stay? ==> ValidNav(ids, r.nav)
    decreases |events|
  {
    if events == [] then Stay(n)
    else
      var o := match events[0]
        case AnswerWith(v) => HandleAnswer(ids, n, v)
        case Prev => HandlePrev(ids, n);
      if o.Stay? then Run(ids, o.nav, events[1..]) else o
  }

  /** Answering with each of `values` in turn. */
  function Answering<V>(values: seq<V>): (events: seq<Event<V>>)
    ensures |events| == |values|
    ensures forall k | 0 <= k < |values| :: events[k] == AnswerWith(values[k])
  {
    if values == [] then [] else [AnswerWith(values[0])] + Answering(values[1..])
  }

  /** `m` with `keys[k]` mapped to `values[k]`, in order. */
  function Fill<V>(m: map<int, V>, keys: seq<int>, values: seq<V>): map<int, V>
    requires |keys| == |values|
    decreases |keys|
  {
    if keys == [] then m else Fill(m[keys[0] := values[0]], keys[1..], values[1..])
  }

  /** With distinct keys, each key ends up mapped to its own value and every
      other entry of `m` is left as it was. */
  lemma {:induction false} FillContents<V>(m: map<int, V>, keys: seq<int>, values: seq<V>)
    requires |keys| == |values|
    requires forall j, k | 0 <= j < k < |keys| :: keys[j] != keys[k]
    ensures forall k | 0 <= k < |keys| :: keys[k] in Fill(m, keys, values) && Fill(m, keys, values)[keys[k]] == values[k]
    ensures forall id | id !in keys :: (id in Fill(m, keys, values) <==> id in m)
    ensures forall id | id !in keys && id in m :: Fill(m, keys, values)[id] == m[id]
    decreases |keys|
  {
    if keys != [] {
      var m' := m[keys[0] := values[0]];
      FillContents(m', keys[1..], values[1..]);
      var f := Fill(m, keys, values);
      assert f == Fill(m', keys[1..], values[1..]);
      assert keys[0] !in keys[1..];
      forall k | 0 <= k < |keys|
        ensures keys[k] in f && f[keys[k]] == values[k]
      {
        if k > 0 {
          assert keys[k] == keys[1..][k - 1];
        }
      }
      forall id | id !in keys
        ensures id != keys[0] && id !in keys[1..]
      {
        assert keys[0] in keys;
      }
    }
  }

  /** Answering the questions from position `n.index` on, one value each,
      hands over the earlier answers filled in with each remaining question's
      id mapped to its value. */
  lemma {:induction false} AnswerRestCompletes<V>(ids: seq<int>, n: Nav<V>, values: seq<V>)
    requires ValidNav(ids, n)
    requires |values| == |ids| - n.index
    ensures Run(ids, n, Answering(values)) == Completed(Fill(n.answers, ids[n.index..], values))
    decreases |ids| - n.index
  {
    var rest := ids[n.index..];
    assert rest[1..] == ids[n.index + 1..];
    if n.index == |ids| - 1 {
      assert Answering(values) == [AnswerWith(values[0])];
      assert Run(ids, n, Answering(values)) == HandleAnswer(ids, n, values[0]);
    } else {
      var after := Nav(n.index + 1, n.answers[ids[n.index] := values[0]]);
      AnswerRestCompletes(ids, after, values[1..]);
      RunAnswerStep(ids, n, values);
    }
  }

  /** Answering a question that is not the last moves on with the answer stored. */
  lemma RunAnswerStep<V>(ids: seq<int>, n: Nav<V>, values: seq<V>)
    requires ValidNav(ids, n) && n.index < |ids| - 1 && |values| > 0
    ensures Run(ids, n, Answering(values))
         == Run(ids, Nav(n.index + 1, n.answers[ids[n.index] := values[0]]), Answering(values[1..]))
  {
    var events := Answering(values);
    assert events[1..] == Answering(values[1..]);
    assert HandleAnswer(ids, n, values[0]) == Stay(Nav(n.index + 1, n.answers[ids[n.index] := values[0]]));
  }

  /** Answering every question of a session with distinct ids, from the
      start, hands over exactly one answer per question. */
  lemma AnswerAllCompletes<V>(ids: seq<int>, values: seq<V>)
    requires |ids| > 0 && |values| == |ids|
    requires forall j, k | 0 <= j < k < |ids| :: ids[j] != ids[k]
    ensures var r := Run(ids, Initial(), Answering(values));
            && r.Completed?
            && (forall k | 0 <= k < |ids| :: ids[k] in r.answers && r.answers[ids[k]] == values[k])
            && (forall id | id in r.answers :: id in ids)
  {
    AnswerRestCompletes(ids, Initial(), values);
    assert ids[0..] == ids;
    FillContents(map[], ids, values);
  }
}
