/** The page that switches between the landing, quiz and results screens
    (src/pages/Index.tsx). */
module IndexPage {

  datatype Screen = Landing | Quiz | Results

  /** The page's state: the screen shown and the answers handed to the results screen. */
  datatype Page<V> = Page(screen: Screen, answers: map<int, V>)

  /** The state the page mounts with. */
  function Initial<V>(): Page<V> {
    Page(Landing, map[])
  }

  /** `handleStart`: from the landing screen to the quiz; the answers stay. */
  function HandleStart<V>(p: Page<V>): (r: Page<V>)
    ensures r.screen == Quiz && r.answers == p.answers
  {
    p.(screen := Quiz)
  }

  /** `handleComplete(ans)`: keep the quiz's answers and show the results. */
  function HandleComplete<V>(p: Page<V>, ans: map<int, V>): (r: Page<V>)
    ensures r.screen == Results && r.answers == ans
  {
    Page(Results, ans)
  }

  /** `handleRestart`: forget the answers and go back to the landing screen. */
  function HandleRestart<V>(p: Page<V>): (r: Page<V>)
    ensures r == Initial()
  {
    Page(Landing, map[])
  }

  /** The quiz's `onBack`: back to the landing screen with the answers untouched. */
  function HandleQuizBack<V>(p: Page<V>): (r: Page<V>)
    ensures r.screen == Landing && r.answers == p.answers
  {
    p.(screen := Landing)
  }

  /** What can happen on the page; each is offered by one screen only. */
  datatype Event<V> = Start | Complete(ans: map<int, V>) | Restart | QuizBack

  /** The screen whose controls raise the event. */
  function Source<V>(e: Event<V>): Screen {
    match e
    case Start => Landing
    case Complete(_) => Quiz
    case Restart => Results
    case QuizBack => Quiz
  }

  /** The page's reaction to an event: the screen each event leads to, and
      which answers survive it. */
  function Step<V>(p: Page<V>, e: Event<V>): (r: Page<V>)
    ensures r.screen == Quiz <==> e.Start?
    ensures r.screen == Results <==> e.Complete?
    ensures r.screen == Landing <==> e.Restart? || e.QuizBack?
    ensures e.Complete? ==> r.answers == e.ans
    ensures e.Restart? ==> r.answers == map[]
    ensures e.Start? || e.QuizBack? ==> r.answers == p.answers
  {
    match e
    case Start => HandleStart(p)
    case Complete(ans) => HandleComplete(p, ans)
    case Restart => HandleRestart(p)
    case QuizBack => HandleQuizBack(p)
  }

  /** Every event is raised by the screen being shown. */
  predicate Possible<V>(p: Page<V>, events: seq<Event<V>>)
    decreases |events|
  {
    events == [] || (Source(events[0]) == p.screen && Possible(Step(p, events[0]), events[1..]))
  }

  /** The state after a series of events. */
  function Run<V>(p: Page<V>, events: seq<Event<V>>): Page<V>
    decreases |events|
  {
    if events == [] then p else Run(Step(p, events[0]), events[1..])
  }

  /** Outside the results screen the page holds no answers. */
  predicate NoStaleAnswers<V>(p: Page<V>) {
    p.screen != Results ==> p.answers == map[]
  }

  /** Starting from a page without stale answers, any possible series of
      events keeps it so: answers only exist while the results are shown. */
  lemma {:induction false} RunKeepsNoStaleAnswers<V>(p: Page<V>, events: seq<Event<V>>)
    requires NoStaleAnswers(p) && Possible(p, events)
    ensures NoStaleAnswers(Run(p, events))
    decreases |events|
  {
    if events != [] {
      RunKeepsNoStaleAnswers(Step(p, events[0]), events[1..]);
    }
  }

  /** From the first mount, the results screen always shows the answers of
      the last completed quiz. */
  lemma {:induction false} ResultsShowLastCompletion<V>(p: Page<V>, events: seq<Event<V>>, ans: map<int, V>)
    requires Possible(p, events)
    ensures Possible(Run(p, events), [Complete(ans)]) <==> Run(p, events).screen == Quiz
    ensures Run(p, events + [Complete(ans)]) == Page(Results, ans)
    decreases |events|
  {
    if events != [] {
      ResultsShowLastCompletion(Step(p, events[0]), events[1..], ans);
      assert (events + [Complete(ans)])[1..] == events[1..] + [Complete(ans)];
    }
  }
}
