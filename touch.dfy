/** The touch tracker of `is_first_touch`: a count of contacts in progress and
    the "first" contact, the only one whose movement also moves the cursor. */
module TouchTracker {
  import opened X11Types

  /** `first_touch` and `num_touch` of the event processor. */
  datatype Tracker = Tracker(first: Option<TouchId>, num: nat)

  const Idle := Tracker(None, 0)

  /** The tracker after one touch event, and whether `id` is then the first contact. */
  function Step(t: Tracker, id: TouchId, phase: TouchPhase): (Tracker, bool) {
    var next :=
      match phase
      case Started => Tracker(if t.num == 0 then Some(id) else t.first, t.num + 1)
      case Ended | Cancelled =>
        // `num.saturating_sub(1)`
        Tracker(if t.first == Some(id) then None else t.first, if t.num == 0 then 0 else t.num - 1)
      case Moved => t;
    (next, next.first == Some(id))
  }

  lemma StartedRecordsFirstOnlyWhenIdle(t: Tracker, id: TouchId)
    ensures var (next, _) := Step(t, id, Started);
      next.num == t.num + 1 &&
      (t.num == 0 ==> next.first == Some(id)) &&
      (t.num != 0 ==> next.first == t.first)
  {
  }

  lemma EndClearsOnlyItsOwnContact(t: Tracker, id: TouchId, phase: TouchPhase)
    requires phase == Ended || phase == Cancelled
    ensures var (next, first) := Step(t, id, phase);
      !first &&
      (t.first == Some(id) ==> next.first == None) &&
      (t.first != Some(id) ==> next.first == t.first) &&
      next.num == (if t.num == 0 then 0 else t.num - 1)
  {
  }

  lemma MovedChangesNothing(t: Tracker, id: TouchId)
    ensures Step(t, id, TouchPhase.Moved) == (t, t.first == Some(id))
  {
  }

  /** The answer is whether the tracker names `id` as its first contact afterwards. */
  lemma AnswerIsFirstContact(t: Tracker, id: TouchId, phase: TouchPhase)
    ensures Step(t, id, phase).1 <==> Step(t, id, phase).0.first == Some(id)
  {
  }

  /** The contacts in progress after a touch event. */
  function Contacts(active: set<TouchId>, id: TouchId, phase: TouchPhase): set<TouchId> {
    match phase
    case Started => active + {id}
    case Ended | Cancelled => active - {id}
    case Moved => active
  }

  /** A touch event the server can send while `active` are in progress: a new
      contact has a fresh id, and only a contact in progress moves or ends. */
  predicate Plausible(active: set<TouchId>, id: TouchId, phase: TouchPhase) {
    if phase == Started then id !in active else id in active
  }

  /** The tracker agrees with the contacts in progress: it counts them, and its
      first contact is one of them. */
  predicate Tracks(t: Tracker, active: set<TouchId>) {
    t.num == |active| && (t.first.Some? ==> t.first.value in active)
  }

  lemma {:induction false} StepTracks(t: Tracker, active: set<TouchId>, id: TouchId, phase: TouchPhase)
    requires Tracks(t, active) && Plausible(active, id, phase)
    ensures Tracks(Step(t, id, phase).0, Contacts(active, id, phase))
    ensures phase == Ended || phase == Cancelled ==> t.num > 0
  {
    match phase
    case Started =>
      assert |active + {id}| == |active| + 1;
      if t.num == 0 {
        assert active == {};
      }
    case Ended =>
      assert |active - {id}| == |active| - 1;
    case Cancelled =>
      assert |active - {id}| == |active| - 1;
    case Moved =>
  }

  /** A stream of touch events as the touch handler sees them. */
  function Run(t: Tracker, touches: seq<(TouchId, TouchPhase)>): Tracker
    decreases |touches|
  {
    if touches == [] then t else Run(Step(t, touches[0].0, touches[0].1).0, touches[1..])
  }

  function ActiveAfter(active: set<TouchId>, touches: seq<(TouchId, TouchPhase)>): set<TouchId>
    decreases |touches|
  {
    if touches == [] then active else ActiveAfter(Contacts(active, touches[0].0, touches[0].1), touches[1..])
  }

  predicate PlausibleRun(active: set<TouchId>, touches: seq<(TouchId, TouchPhase)>)
    decreases |touches|
  {
    touches == [] ||
    (Plausible(active, touches[0].0, touches[0].1) &&
     PlausibleRun(Contacts(active, touches[0].0, touches[0].1), touches[1..]))
  }

  /** Over any plausible stream the count never underflows and equals the number
      of contacts in progress, and the first contact is always one in progress. */
  lemma {:induction false} RunTracks(t: Tracker, active: set<TouchId>, touches: seq<(TouchId, TouchPhase)>)
    requires Tracks(t, active) && PlausibleRun(active, touches)
    ensures Tracks(Run(t, touches), ActiveAfter(active, touches))
    decreases |touches|
  {
    if touches != [] {
      StepTracks(t, active, touches[0].0, touches[0].1);
      RunTracks(Step(t, touches[0].0, touches[0].1).0, Contacts(active, touches[0].0, touches[0].1), touches[1..]);
    }
  }

  /** Contact 7 starts on an idle tracker and drives the cursor; contact 9 then
      starts and does not; when 7 ends nobody is first and one contact remains. */
  lemma TwoContacts()
    ensures Step(Idle, 7, Started) == (Tracker(Some(7), 1), true)
    ensures Step(Tracker(Some(7), 1), 9, Started) == (Tracker(Some(7), 2), false)
    ensures Step(Tracker(Some(7), 2), 7, Ended) == (Tracker(None, 1), false)
  {
  }
}
