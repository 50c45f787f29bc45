/** The input-method tail of `process_event`: at most one request from other
    threads is handed to the input method, then at most one event of the
    composition bridge is translated, which drives the `is_composing` flag. */
module ImeBridge {
  import opened X11Types

  /** The events of the composition bridge (`ime::ImeEvent`). */
  datatype BridgeEvent =
    | Enabled
    | Start
    | Update(text: string, position: Option<nat>)
    | Commit(text: string)
    | End
    | Disabled

  /** Requests from other threads (`ime::ImeRequest`). */
  datatype ImeRequest = Position(window: Window, x: int, y: int) | Allow(window: Window, allowed: bool)

  /** What the input method holds when the tail runs: the pending request, if
      any, and the bridge's next event, if any. */
  datatype ImeTurn = ImeTurn(request: Option<ImeRequest>, next: Option<(Window, BridgeEvent)>)

  function RequestEffect(r: ImeRequest): Request {
    match r
    case Position(w, x, y) => ImeSetSpot(w, x, y)
    case Allow(w, allowed) => ImeSetAllowed(w, allowed)
  }

  /** The composing flag after one bridge event, and the events for the callback. */
  function Handle(composing: bool, window: Window, e: BridgeEvent): (bool, seq<Event>) {
    match e
    case Enabled => (composing, [OnWindow(window, Ime(Ime.Enabled))])
    case Start => (true, [OnWindow(window, Ime(Preedit("", None)))])
    case Update(text, position) =>
      var cursor := if position.Some? then Some((position.value, position.value)) else None;
      (composing, if composing then [OnWindow(window, Ime(Preedit(text, cursor)))] else [])
    case Commit(text) => (false, [OnWindow(window, Ime(Preedit("", None))), OnWindow(window, Ime(Ime.Commit(text)))])
    case End => (false, [OnWindow(window, Ime(Preedit("", None)))])
    case Disabled => (false, [OnWindow(window, Ime(Ime.Disabled))])
  }

  /** The whole tail: nothing at all when the process has no input method. */
  function Turn(composing: bool, ime: Option<ImeTurn>): (bool, seq<Event>, seq<Request>) {
    match ime
    case None => (composing, [], [])
    case Some(t) =>
      var sent := if t.request.Some? then [RequestEffect(t.request.value)] else [];
      match t.next
      case None => (composing, [], sent)
      case Some((w, e)) =>
        var (c, events) := Handle(composing, w, e);
        (c, events, sent)
  }

  lemma StartBeginsComposition(composing: bool, window: Window)
    ensures Handle(composing, window, Start) == (true, [OnWindow(window, Ime(Preedit("", None)))])
  {
  }

  lemma CommitClearsPreeditThenCommits(composing: bool, window: Window, text: string)
    ensures Handle(composing, window, BridgeEvent.Commit(text)) ==
      (false, [OnWindow(window, Ime(Preedit("", None))), OnWindow(window, Ime(Ime.Commit(text)))])
  {
  }

  lemma EndAndDisabledStopComposition(composing: bool, window: Window)
    ensures !Handle(composing, window, End).0 && !Handle(composing, window, BridgeEvent.Disabled).0
  {
  }

  /** An update shows a preedit, with the cursor as an empty range, only while composing. */
  lemma UpdateOnlyWhileComposing(composing: bool, window: Window, text: string, position: Option<nat>)
    ensures Handle(composing, window, Update(text, position)).0 == composing
    ensures composing ==> (Handle(composing, window, Update(text, position)).1 ==
      [OnWindow(window, Ime(Preedit(text, if position.Some? then Some((position.value, position.value)) else None)))])
    ensures !composing ==> Handle(composing, window, Update(text, position)).1 == []
  {
  }

  /** One call hands over at most one request and translates at most one bridge
      event, into at most two callback events. */
  lemma AtMostOneOfEach(composing: bool, ime: Option<ImeTurn>)
    ensures |Turn(composing, ime).2| <= 1
    ensures |Turn(composing, ime).1| <= 2
    ensures ime.None? ==> Turn(composing, ime) == (composing, [], [])
    ensures ime.Some? && ime.value.next.None? ==> Turn(composing, ime).0 == composing && Turn(composing, ime).1 == []
  {
  }

  /** Whether a bridge event opens or closes a composition. */
  predicate Delimits(e: BridgeEvent) {
    e.Start? || e.Commit? || e.End? || e.Disabled?
  }

  function Run(composing: bool, events: seq<(Window, BridgeEvent)>): bool
    decreases |events|
  {
    if events == [] then composing else Run(Handle(composing, events[0].0, events[0].1).0, events[1..])
  }

  /** After a stream of bridge events the flag is set exactly when the last
      event that opens or closes a composition is `Start` (or, with none such,
      when it was set before). */
  lemma {:induction false} ComposingFollowsLastDelimiter(composing: bool, events: seq<(Window, BridgeEvent)>)
    ensures Run(composing, events) ==
      if exists i :: 0 <= i < |events| && Delimits(events[i].1)
      then events[LastDelimiter(events)].1.Start?
      else composing
    decreases |events|
  {
    if events != [] {
      var c := Handle(composing, events[0].0, events[0].1).0;
      ComposingFollowsLastDelimiter(c, events[1..]);
      if exists i :: 0 <= i < |events[1..]| && Delimits(events[1..][i].1) {
        var j :| 0 <= j < |events[1..]| && Delimits(events[1..][j].1);
        assert Delimits(events[j + 1].1);
        LastDelimiterShifts(events);
      } else {
        if Delimits(events[0].1) {
          LastDelimiterIsFirst(events);
        } else {
          forall i | 0 <= i < |events| ensures !Delimits(events[i].1) {
            if i > 0 { assert events[i] == events[1..][i - 1]; }
          }
        }
      }
    }
  }

  /** The index of the last event that opens or closes a composition. */
  function LastDelimiter(events: seq<(Window, BridgeEvent)>): (k: nat)
    requires exists i :: 0 <= i < |events| && Delimits(events[i].1)
    ensures k < |events| && Delimits(events[k].1)
    ensures forall i :: k < i < |events| ==> !Delimits(events[i].1)
    decreases |events|
  {
    var n := |events| - 1;
    if Delimits(events[n].1) then n
    else
      assert exists i :: 0 <= i < |events[..n]| && Delimits(events[..n][i].1) by {
        var i :| 0 <= i < |events| && Delimits(events[i].1);
        assert i < n && events[..n][i] == events[i];
      }
      var k := LastDelimiter(events[..n]);
      assert events[k] == events[..n][k];
      k
  }

  lemma LastDelimiterShifts(events: seq<(Window, BridgeEvent)>)
    requires |events| > 0
    requires exists i :: 0 <= i < |events[1..]| && Delimits(events[1..][i].1)
    ensures exists i :: 0 <= i < |events| && Delimits(events[i].1)
    ensures events[LastDelimiter(events)] == events[1..][LastDelimiter(events[1..])]
  {
    var j :| 0 <= j < |events[1..]| && Delimits(events[1..][j].1);
    assert Delimits(events[j + 1].1);
    var a, b := LastDelimiter(events), LastDelimiter(events[1..]);
    assert events[b + 1] == events[1..][b];
  }

  lemma LastDelimiterIsFirst(events: seq<(Window, BridgeEvent)>)
    requires |events| > 0 && Delimits(events[0].1)
    requires !exists i :: 0 <= i < |events[1..]| && Delimits(events[1..][i].1)
    ensures LastDelimiter(events) == 0
  {
    forall k | 0 < k < |events| ensures !Delimits(events[k].1) {
      assert events[k] == events[1..][k - 1];
    }
  }
}
