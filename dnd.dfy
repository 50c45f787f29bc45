/** The receiving side of the freedesktop.org XDND protocol (version 5): the
    client messages XdndEnter, XdndPosition, XdndDrop and XdndLeave, the replies
    XdndStatus and XdndFinished, and the SelectionNotify that delivers the data.
    Reading the property and parsing the URI list happen outside this model:
    their outcome is an input. */
module Xdnd {
  import opened X11Types

  /** The failure of `parse_data`. */
  datatype ParseError = ParseError

  type ParseResult = Result<seq<Path>, ParseError>

  /** The five 32-bit data words of a client message. */
  type Data32 = d: seq<u32> | |d| == 5 witness [0, 0, 0, 0, 0]

  /** The state fields of `Dnd`. */
  datatype Session = Session(
    version: Option<u32>,
    typeList: Option<seq<Atom>>,
    sourceWindow: Option<Window>,
    result: Option<ParseResult>)

  /** `Dnd::reset`: every field empty. */
  const Idle := Session(None, None, None, None)

  /** The session after a message, the callback's events and the requests sent. */
  datatype Outcome = Outcome(session: Session, events: seq<Event>, sent: seq<Request>)

  /** `X11rb::CURRENT_TIME`. */
  const CURRENT_TIME: u32 := 0

  /** The test of the flags word exactly as written: `flags - (flags & (u32::MAX - 1)) == 1`. */
  predicate HasMoreTypes(flags: u32) {
    var f := flags as bv32;
    f - (f & 0xFFFF_FFFE) == 1
  }

  /** The written test is the test of bit 0, "more than three types". */
  lemma HasMoreTypesIsBitZero(flags: u32)
    ensures HasMoreTypes(flags) <==> (flags as bv32) & 1 == 1
  {
  }

  /** XdndEnter. `moreTypes` is the reply to the query of the source's
      `XdndTypeList` property, `None` when the query fails. */
  function Enter(s: Session, data: Data32, moreTypes: Option<seq<Atom>>): Session {
    var flags := data[1];
    var s1 := s.(version := Some(flags / 0x100_0000));
    if !HasMoreTypes(flags) then s1.(typeList := Some([data[2], data[3], data[4]]))
    else if moreTypes.Some? then s1.(typeList := moreTypes)
    else s1
  }

  predicate Accepts(s: Session, textUriList: Atom) {
    s.typeList.Some? && textUriList in s.typeList.value
  }

  /** XdndPosition received by `window`. */
  function Position(s: Session, window: Window, data: Data32, textUriList: Atom): Outcome {
    var source := data[0];
    var version := s.version.GetOr(5);
    if Accepts(s, textUriList) then
      var time := if version >= 1 then data[3] else CURRENT_TIME;
      var convert := if s.result.None? then [ConvertSelection(window, time)] else [];
      Outcome(s.(sourceWindow := Some(source)), [], convert + [XdndStatus(window, source, Accepted)])
    else
      Outcome(Idle, [], [XdndStatus(window, source, Rejected)])
  }

  function DroppedFiles(window: Window, paths: seq<Path>): seq<Event> {
    seq(|paths|, i requires 0 <= i < |paths| => OnWindow(window, DroppedFile(paths[i])))
  }

  function HoveredFiles(window: Window, paths: seq<Path>): seq<Event> {
    seq(|paths|, i requires 0 <= i < |paths| => OnWindow(window, HoveredFile(paths[i])))
  }

  /** XdndDrop received by `window`. */
  function Drop(s: Session, window: Window, data: Data32): Outcome {
    if s.sourceWindow.Some? then
      var dropped := if s.result.Some? && s.result.value.Ok? then DroppedFiles(window, s.result.value.value) else [];
      Outcome(Idle, dropped, [XdndFinished(window, s.sourceWindow.value, Accepted)])
    else
      // a drop we rejected at XdndPosition: the source is named by the message
      Outcome(Idle, [], [XdndFinished(window, data[0], Rejected)])
  }

  /** XdndLeave received by `window`. */
  function Leave(s: Session, window: Window): Outcome {
    Outcome(Idle, [OnWindow(window, HoveredFileCancelled)], [])
  }

  /** SelectionNotify for the XdndSelection property. `reply` is `None` when the
      property cannot be read, otherwise the outcome of parsing it. */
  function Selection(s: Session, window: Window, reply: Option<ParseResult>): Outcome {
    var hovered := if reply.Some? && reply.value.Ok? then HoveredFiles(window, reply.value.value) else [];
    Outcome(s.(result := reply), hovered, [])
  }

  lemma EnterRecordsVersionAndTypes(s: Session, data: Data32, moreTypes: Option<seq<Atom>>)
    ensures Enter(s, data, moreTypes).version == Some(data[1] / 0x100_0000)
    ensures (data[1] as bv32) & 1 == 0 ==> Enter(s, data, moreTypes).typeList == Some(data[2..5])
    ensures (data[1] as bv32) & 1 == 1 ==>
      Enter(s, data, moreTypes).typeList == if moreTypes.Some? then moreTypes else s.typeList
    ensures Enter(s, data, moreTypes).sourceWindow == s.sourceWindow
    ensures Enter(s, data, moreTypes).result == s.result
  {
    HasMoreTypesIsBitZero(data[1]);
    assert data[2..5] == [data[2], data[3], data[4]];
  }

  /** A position over a type list without `text/uri-list` is refused and ends the session. */
  lemma RejectedPositionResets(s: Session, window: Window, data: Data32, textUriList: Atom)
    requires !Accepts(s, textUriList)
    ensures Position(s, window, data, textUriList) == Outcome(Idle, [], [XdndStatus(window, data[0], Rejected)])
  {
  }

  /** An accepted position records the source, asks for the data only while no
      parse result is cached, and then replies Accepted to the source. */
  lemma AcceptedPositionRecordsSource(s: Session, window: Window, data: Data32, textUriList: Atom)
    requires Accepts(s, textUriList)
    ensures var o := Position(s, window, data, textUriList);
      o.session == s.(sourceWindow := Some(data[0])) &&
      o.events == [] &&
      |o.sent| == (if s.result.None? then 2 else 1) &&
      o.sent[|o.sent| - 1] == XdndStatus(window, data[0], Accepted) &&
      (s.result.None? ==> o.sent[0].ConvertSelection? && o.sent[0].window == window)
  {
  }

  /** A drop always ends the session and sends exactly one XdndFinished: Accepted
      to the recorded source, or Rejected to the window the message names. */
  lemma DropFinishes(s: Session, window: Window, data: Data32)
    ensures var o := Drop(s, window, data);
      o.session == Idle &&
      o.sent == [XdndFinished(window, if s.sourceWindow.Some? then s.sourceWindow.value else data[0],
                              if s.sourceWindow.Some? then Accepted else Rejected)]
  {
  }

  /** A drop delivers one `DroppedFile` per path, in order, only when a successful
      parse is cached for an accepted session. */
  lemma DropDeliversCachedPaths(s: Session, window: Window, data: Data32)
    ensures var o := Drop(s, window, data);
      (s.sourceWindow.Some? && s.result.Some? && s.result.value.Ok? ==>
        |o.events| == |s.result.value.value| &&
        forall i :: 0 <= i < |o.events| ==> o.events[i] == OnWindow(window, DroppedFile(s.result.value.value[i]))) &&
      (!(s.sourceWindow.Some? && s.result.Some? && s.result.value.Ok?) ==> o.events == [])
  {
  }

  lemma LeaveCancels(s: Session, window: Window)
    ensures Leave(s, window) == Outcome(Idle, [OnWindow(window, HoveredFileCancelled)], [])
  {
  }

  /** The parse outcome is cached as it is (nothing when the read fails) and each
      parsed path is announced as hovered. */
  lemma SelectionCachesResult(s: Session, window: Window, reply: Option<ParseResult>)
    ensures Selection(s, window, reply).session == s.(result := reply)
    ensures reply.Some? && reply.value.Ok? ==>
      Selection(s, window, reply).events == HoveredFiles(window, reply.value.value)
    ensures !(reply.Some? && reply.value.Ok?) ==> Selection(s, window, reply).events == []
  {
  }

  /** Enter with `text/uri-list` among the inline types, Position from `source`,
      Drop: the data is requested once, the source is told Accepted twice (status
      and finished), and the session ends idle. Without a SelectionNotify in
      between, the drop delivers no file, yet the source is still told Accepted. */
  lemma {:induction false} HandshakeWithoutData(s: Session, window: Window, enter: Data32, position: Data32, drop: Data32, textUriList: Atom)
    requires (enter[1] as bv32) & 1 == 0
    requires textUriList in enter[2..5]
    requires s.result.None?
    ensures var afterEnter := Enter(s, enter, None);
      var p := Position(afterEnter, window, position, textUriList);
      var d := Drop(p.session, window, drop);
      p.sent == [ConvertSelection(window, if enter[1] / 0x100_0000 >= 1 then position[3] else CURRENT_TIME),
                 XdndStatus(window, position[0], Accepted)] &&
      d.sent == [XdndFinished(window, position[0], Accepted)] &&
      d.events == [] &&
      d.session == Idle
  {
    EnterRecordsVersionAndTypes(s, enter, None);
    var afterEnter := Enter(s, enter, None);
    assert Accepts(afterEnter, textUriList);
  }

  /** The same handshake with the data delivered before the drop: every parsed
      path is dropped, in order. */
  lemma {:induction false} HandshakeWithData(s: Session, window: Window, enter: Data32, position: Data32, paths: seq<Path>, drop: Data32, textUriList: Atom)
    requires (enter[1] as bv32) & 1 == 0
    requires textUriList in enter[2..5]
    ensures var p := Position(Enter(s, enter, None), window, position, textUriList);
      var sel := Selection(p.session, window, Some(Ok(paths)));
      var d := Drop(sel.session, window, drop);
      sel.events == HoveredFiles(window, paths) &&
      d.events == DroppedFiles(window, paths) &&
      d.sent == [XdndFinished(window, position[0], Accepted)] &&
      d.session == Idle
  {
    EnterRecordsVersionAndTypes(s, enter, None);
    assert Accepts(Enter(s, enter, None), textUriList);
  }
}
