/**
 * The layout coordinator: the per-pipeline unit that receives messages,
 * runs reflows, answers geometry queries from its cached display list and
 * shuts down through a two-phase handshake. Every message it sends (to
 * script, to the renderer, to the image cache) is recorded as an `Event`
 * appended to `log`; the messages it will receive are the queue `port`,
 * except the renderer's reply to the exit request, which arrives on a reply
 * port of its own and is logged as `RenderExitConfirmed`.
 */
module Layout {
  import opened Wrappers
  import opened Geometry
  import opened FlowDamage
  import opened DisplayQueries
  import opened PageBackground

  type PipelineId = nat
  type ReflowId = nat
  /** A stylesheet, opaque here; the cascade rule set is modelled as the sheets added to it. */
  type Stylesheet = nat
  /** A reference to the auxiliary layout data of a discarded document node. */
  type LayoutDataRef = nat

  /** How much of the document changed since the last reflow. */
  datatype DocumentDamageLevel =
    | ReflowDocumentDamage          // reflow only: no selector matching
    | MatchSelectorsDocumentDamage  // selector matching and reflow
    | ContentChangedDocumentDamage  // content changed: full restyle damage as well

  datatype ReflowGoal = ReflowForDisplay | ReflowForScriptQuery

  /** A reflow request. The viewport size is taken in app units. */
  datatype Reflow = Reflow(
    documentRoot: DomNode,
    damage: DocumentDamageLevel,
    windowSize: Size,
    goal: ReflowGoal,
    id: ReflowId)

  datatype LayoutQuery =
    | ContentBoxQuery(node: NodeId)
    | ContentBoxesQuery(node: NodeId)
    | HitTestQuery(point: Point)

  /** A query reply; `HitTestResult(None)` is the `Err(())` reply. */
  datatype QueryResponse =
    | ContentBoxResponse(rect: Rect)
    | ContentBoxesResponse(rects: seq<Rect>)
    | HitTestResult(hit: Option<NodeId>)

  datatype Msg =
    | AddStylesheetMsg(sheet: Stylesheet)
    | ReflowMsg(data: Reflow)
    | QueryMsg(query: LayoutQuery)
    | ReapLayoutDataMsg(layoutData: LayoutDataRef)
    | PrepareToExitMsg
    | ExitNowMsg

  /** What is sent to the renderer; the pixel size of the layer is not modelled. */
  datatype RenderLayer = RenderLayer(displayList: DisplayList, color: Color)

  /**
   * Everything the coordinator sends or hands to a collaborator, in order,
   * and the one message it receives outside `port`: the renderer's reply to
   * its exit request.
   */
  datatype Event =
    | ImageCacheReset                      // the local image cache starts a new round
    | StyleInitialized                     // per-node style storage set up over the subtree
    | SelectorsMatched                     // selector matching and cascade over the subtree
    | DamageComputed(allStyleDamage: bool, damage: seq<Damage>)  // both damage passes done
    | WidthsBubbled                        // the three constraint-solving passes, in order
    | WidthsAssigned
    | HeightsAssigned
    | RenderLayerSent(layer: RenderLayer)
    | ScriptJoined                         // the join signal to script
    | ReflowCompleted(pipeline: PipelineId, reflow: ReflowId)
    | QueryAnswered(response: QueryResponse)
    | LayoutDataReaped(layoutData: LayoutDataRef)
    | ExitAcknowledged                     // the reply to `PrepareToExitMsg`
    | RenderExitRequested                  // `ExitMsg` sent to the renderer
    | RenderExitConfirmed                  // the renderer's reply received

  /** The reasons the task fails outright. */
  datatype FailReason =
    | NoLayoutDataForRoot
    | NoFlowAtRoot
    | NoDisplayList
    | UnexpectedMessageAfterPrepareToExit

  datatype TaskState = Running | Draining | Terminated | Failed(reason: FailReason)

  /** A flow tree as the flow constructor hands it over: arena shape and each node's damage. */
  datatype ConstructedFlow = ConstructedFlow(parent: seq<nat>, damage: seq<Damage>)

  type Flow = f: ConstructedFlow | IsFlowTree(f.parent) && |f.damage| == |f.parent|
    witness ConstructedFlow([0], [{}])

  /** What flow construction leaves on the document root's layout data. */
  datatype ConstructionResult =
    | NoConstructionResult
    | FlowConstructionResult(flow: Flow)
    | ConstructionItemConstructionResult

  /**
   * The collaborators whose code is not part of this model: the damage bit
   * algebra, the flow constructor (`None` when the root has no layout data)
   * and the display-list builder.
   */
  datatype Collaborators = Collaborators(
    rules: DamageRules,
    constructFlows: (DomNode, seq<Stylesheet>) -> Option<ConstructionResult>,
    buildDisplayList: (DomNode, seq<Stylesheet>, Size) -> DisplayList)

  // ---------------------------------------------------------------------------
  // A reflow, as a function of the request and the coordinator's state.

  predicate IsShutdownEvent(e: Event)
  {
    e.ExitAcknowledged? || e.RenderExitRequested? || e.RenderExitConfirmed?
  }

  predicate IsCompletionEvent(e: Event)
  {
    e.ScriptJoined? || e.ReflowCompleted?
  }

  /** Whether the reflow runs with full restyle damage: content changed, or the viewport did. */
  function AllStyleDamage(level: DocumentDamageLevel, stored: Option<Size>, size: Size): bool
  {
    level == ContentChangedDocumentDamage || stored != Some(size)
  }

  /** The events before flow construction: the image-cache round, style setup, selector matching. */
  function StyledEvents(level: DocumentDamageLevel): seq<Event>
  {
    [ImageCacheReset, StyleInitialized] + (if level == ReflowDocumentDamage then [] else [SelectorsMatched])
  }

  /** Load a constructed flow tree's damage into its array and run the top-down, then the bottom-up pass. */
  method RunDamagePasses(flow: Flow, allStyleDamage: bool, rules: DamageRules) returns (damage: seq<Damage>)
    ensures damage == Aggregated(Propagated(flow.damage, flow.parent, allStyleDamage, rules),
                                 flow.parent, rules.propagateUp)
  {
    var tree := new FlowTree(flow.parent, flow.damage);
    tree.PropagateDamage(allStyleDamage, rules);
    tree.ComputeDamage(rules);
    damage := tree.damage[..];
  }

  datatype ReflowOutcome = ReflowOutcome(
    events: seq<Event>,
    failure: Option<FailReason>,
    builtList: Option<DisplayList>)

  /**
   * `handle_reflow`: the events one reflow sends, whether it fails, and the
   * display list it builds, given the cascade rule set `sheets` and the
   * viewport size `stored` from the previous reflow.
   */
  function ReflowSpec(id: PipelineId, collab: Collaborators, sheets: seq<Stylesheet>,
                      stored: Option<Size>, data: Reflow): ReflowOutcome
  {
    var force := AllStyleDamage(data.damage, stored, data.windowSize);
    var styled := StyledEvents(data.damage);
    match collab.constructFlows(data.documentRoot, sheets)
    case None => ReflowOutcome(styled, Some(NoLayoutDataForRoot), None)
    case Some(result) =>
      if !result.FlowConstructionResult? then ReflowOutcome(styled, Some(NoFlowAtRoot), None)
      else
        var flow := result.flow;
        var damage := Aggregated(Propagated(flow.damage, flow.parent, force, collab.rules),
                                 flow.parent, collab.rules.propagateUp);
        var solved := styled + [DamageComputed(force, damage), WidthsBubbled, WidthsAssigned, HeightsAssigned];
        var done := [ScriptJoined, ReflowCompleted(id, data.id)];
        if data.goal == ReflowForDisplay then
          var list := collab.buildDisplayList(data.documentRoot, sheets, data.windowSize);
          var layer := RenderLayer(list, PageColor(Preorder([data.documentRoot])));
          ReflowOutcome(solved + [RenderLayerSent(layer)] + done, None, Some(list))
        else
          ReflowOutcome(solved + done, None, None)
  }

  /** A reflow sends nothing of the shutdown handshake. */
  lemma ReflowEventsOrdinary(id: PipelineId, collab: Collaborators, sheets: seq<Stylesheet>,
                             stored: Option<Size>, data: Reflow)
    ensures forall e :: e in ReflowSpec(id, collab, sheets, stored, data).events ==> !IsShutdownEvent(e)
  {
  }

  /**
   * A reflow that completes signals the join and then the completion notice,
   * each exactly once and as its last two events; a reflow that fails
   * signals neither.
   */
  lemma ReflowJoinBeforeComplete(id: PipelineId, collab: Collaborators, sheets: seq<Stylesheet>,
                                 stored: Option<Size>, data: Reflow)
    ensures var r := ReflowSpec(id, collab, sheets, stored, data);
            var n := |r.events|;
            && (r.failure.None? ==>
                  && n >= 2 && r.events[n - 2] == ScriptJoined
                  && r.events[n - 1] == ReflowCompleted(id, data.id)
                  && forall k :: 0 <= k < n - 2 ==> !IsCompletionEvent(r.events[k]))
            && (r.failure.Some? ==> forall k :: 0 <= k < n ==> !IsCompletionEvent(r.events[k]))
  {
  }

  /**
   * A reflow fails exactly when flow construction left no flow at the root, and
   * builds (and sends to the renderer) a display list exactly when it
   * completes with the display goal.
   */
  lemma ReflowDisplayList(id: PipelineId, collab: Collaborators, sheets: seq<Stylesheet>,
                          stored: Option<Size>, data: Reflow)
    ensures var r := ReflowSpec(id, collab, sheets, stored, data);
            var c := collab.constructFlows(data.documentRoot, sheets);
            && (r.failure.None? <==> c.Some? && c.value.FlowConstructionResult?)
            && (r.builtList.Some? <==> r.failure.None? && data.goal == ReflowForDisplay)
            && (r.builtList.Some? ==>
                  r.builtList.value == collab.buildDisplayList(data.documentRoot, sheets, data.windowSize)
                  && RenderLayerSent(RenderLayer(r.builtList.value, PageColor(Preorder([data.documentRoot]))))
                     in r.events)
            && (forall e :: e in r.events && e.RenderLayerSent? ==> r.builtList.Some?)
  {
  }

  /** Selector matching runs unless the damage level is reflow-only. */
  lemma ReflowSelectorMatching(id: PipelineId, collab: Collaborators, sheets: seq<Stylesheet>,
                               stored: Option<Size>, data: Reflow)
    ensures (SelectorsMatched in ReflowSpec(id, collab, sheets, stored, data).events)
            <==> data.damage != ReflowDocumentDamage
  {
  }

  /**
   * The damage a completed reflow hands to constraint solving: full restyle
   * exactly when content changed or the viewport size differs from the stored
   * one; then every node carries every bit; in any case no node loses a bit
   * the flow constructor gave it.
   */
  lemma ReflowDamage(id: PipelineId, collab: Collaborators, sheets: seq<Stylesheet>,
                     stored: Option<Size>, data: Reflow)
    requires ReflowSpec(id, collab, sheets, stored, data).failure.None?
    ensures var r := ReflowSpec(id, collab, sheets, stored, data);
            var flow := collab.constructFlows(data.documentRoot, sheets).value.flow;
            exists k :: 0 <= k < |r.events| && r.events[k].DamageComputed? &&
              var e := r.events[k];
              && (e.allStyleDamage <==> data.damage == ContentChangedDocumentDamage || stored != Some(data.windowSize))
              && |e.damage| == |flow.damage|
              && (forall i :: 0 <= i < |e.damage| ==> flow.damage[i] <= e.damage[i])
              && (e.allStyleDamage ==> forall i :: 0 <= i < |e.damage| ==> collab.rules.all <= e.damage[i])
  {
    var flow := collab.constructFlows(data.documentRoot, sheets).value.flow;
    var force := AllStyleDamage(data.damage, stored, data.windowSize);
    forall i | 0 <= i < |flow.damage|
      ensures var after := Aggregated(Propagated(flow.damage, flow.parent, force, collab.rules),
                                      flow.parent, collab.rules.propagateUp);
              flow.damage[i] <= after[i] && (force ==> collab.rules.all <= after[i])
    {
      ReflowDamageGrows(flow.damage, flow.parent, force, collab.rules, i);
    }
    var r := ReflowSpec(id, collab, sheets, stored, data);
    var styled := [ImageCacheReset, StyleInitialized]
                  + (if data.damage == ReflowDocumentDamage then [] else [SelectorsMatched]);
    assert r.events[|styled|].DamageComputed?;
  }

  /**
   * With `all` the top element of the bit algebra, as `RestyleDamage::all()`
   * is, a full-restyle reflow hands every node exactly every bit.
   */
  lemma ReflowDamageSaturates(id: PipelineId, collab: Collaborators, sheets: seq<Stylesheet>,
                              stored: Option<Size>, data: Reflow)
    requires ReflowSpec(id, collab, sheets, stored, data).failure.None?
    requires AllStyleDamage(data.damage, stored, data.windowSize)
    requires forall x :: collab.rules.propagateDown(x) <= collab.rules.all
    requires forall x :: collab.rules.propagateUp(x) <= collab.rules.all
    requires forall j :: 0 <= j < |collab.constructFlows(data.documentRoot, sheets).value.flow.damage| ==>
               collab.constructFlows(data.documentRoot, sheets).value.flow.damage[j] <= collab.rules.all
    ensures forall e :: e in ReflowSpec(id, collab, sheets, stored, data).events && e.DamageComputed? ==>
              forall i :: 0 <= i < |e.damage| ==> e.damage[i] == collab.rules.all
  {
    var flow := collab.constructFlows(data.documentRoot, sheets).value.flow;
    var after := Aggregated(Propagated(flow.damage, flow.parent, true, collab.rules),
                            flow.parent, collab.rules.propagateUp);
    forall i | 0 <= i < |after| ensures after[i] == collab.rules.all {
      ReflowSaturates(flow.damage, flow.parent, collab.rules, i);
    }
    var r := ReflowSpec(id, collab, sheets, stored, data);
    var styled := StyledEvents(data.damage);
    forall e | e in r.events && e.DamageComputed?
      ensures forall i :: 0 <= i < |e.damage| ==> e.damage[i] == collab.rules.all
    {
      var k :| 0 <= k < |r.events| && r.events[k] == e;
      assert k == |styled|;
    }
  }

  /**
   * A reflow leaves its viewport size stored; a second reflow at that same
   * size that is not a content change hands its damage on without full
   * restyle damage.
   */
  lemma RepeatedReflowNotForced(id: PipelineId, collab: Collaborators, sheets: seq<Stylesheet>,
                                first: Reflow, second: Reflow)
    requires second.windowSize == first.windowSize
    requires second.damage != ContentChangedDocumentDamage
    ensures forall e :: e in ReflowSpec(id, collab, sheets, Some(first.windowSize), second).events && e.DamageComputed?
              ==> !e.allStyleDamage
  {
    var r := ReflowSpec(id, collab, sheets, Some(first.windowSize), second);
    var styled := StyledEvents(second.damage);
    forall e | e in r.events && e.DamageComputed?
      ensures !e.allStyleDamage
    {
      var k :| 0 <= k < |r.events| && r.events[k] == e;
      assert k == |styled|;
    }
  }

  // ---------------------------------------------------------------------------
  // Queries, as a function of the cached display list.

  /** The hit-test reply: the owning node of the item hit, when there is a display list. */
  function HitTestReply(list: Option<DisplayList>, point: Point): Option<NodeId>
  {
    if list.None? then None
    else
      match HitTest(point.x, point.y, list.value)
      case None => None
      case Some(item) => Some(item.base.extra)
  }

  /**
   * `handle_query`: the reply to `q`, or `None` when the task fails because
   * a box query arrived before any display list was built. A hit test always
   * replies.
   */
  function QueryAnswer(list: Option<DisplayList>, q: LayoutQuery): (r: Option<QueryResponse>)
    ensures r.None? <==> list.None? && !q.HitTestQuery?
    ensures q.ContentBoxQuery? && r.Some? ==> r.value.ContentBoxResponse?
    ensures q.ContentBoxesQuery? && r.Some? ==> r.value.ContentBoxesResponse?
    ensures q.HitTestQuery? ==> r.Some? && r.value.HitTestResult?
  {
    match q
    case ContentBoxQuery(node) =>
      if list.None? then None else Some(ContentBoxResponse(ContentBox(list.value, node)))
    case ContentBoxesQuery(node) =>
      if list.None? then None else Some(ContentBoxesResponse(Matches(list.value, node)))
    case HitTestQuery(point) =>
      Some(HitTestResult(HitTestReply(list, point)))
  }

  /**
   * The hit-test reply names a node exactly when there is a display list and
   * some non-clip item of it, at any depth, contains the point; the node named
   * owns such an item.
   */
  lemma HitTestReplyMeaning(list: Option<DisplayList>, point: Point)
    ensures HitTestReply(list, point).None? <==>
            list.None? || forall it :: it in Flatten(list.value) ==> !IsLeafHit(it, point.x, point.y)
    ensures HitTestReply(list, point).Some? ==>
            exists it :: it in Flatten(list.value) && IsLeafHit(it, point.x, point.y)
                         && it.base.extra == HitTestReply(list, point).value
  {
    if list.Some? {
      HitTestComplete(point.x, point.y, list.value);
      HitTestSound(point.x, point.y, list.value);
    }
  }

  // ---------------------------------------------------------------------------
  // The shutdown protocol.

  /** The number of reap messages at the head of `msgs`. */
  function LeadingReaps(msgs: seq<Msg>): (k: nat)
    ensures k <= |msgs|
    ensures forall i :: 0 <= i < k ==> msgs[i].ReapLayoutDataMsg?
    ensures k < |msgs| ==> !msgs[k].ReapLayoutDataMsg?
  {
    if msgs == [] || !msgs[0].ReapLayoutDataMsg? then 0 else 1 + LeadingReaps(msgs[1..])
  }

  /** The events that handling the reap messages among `msgs` sends. */
  function ReapEvents(msgs: seq<Msg>): seq<Event>
  {
    if msgs == [] then []
    else
      ReapEvents(msgs[..|msgs| - 1])
      + (if msgs[|msgs| - 1].ReapLayoutDataMsg?
         then [LayoutDataReaped(msgs[|msgs| - 1].layoutData)] else [])
  }

  lemma {:induction false} ReapEventsAreReaps(msgs: seq<Msg>)
    ensures forall e :: e in ReapEvents(msgs) ==> e.LayoutDataReaped?
    decreases |msgs|
  {
    if msgs != [] {
      ReapEventsAreReaps(msgs[..|msgs| - 1]);
    }
  }

  /** The events `prepare_to_exit` sends over the waiting messages `msgs`. */
  function DrainEvents(msgs: seq<Msg>): seq<Event>
  {
    var k := LeadingReaps(msgs);
    [ExitAcknowledged] + ReapEvents(msgs[..k])
    + (if k < |msgs| && msgs[k].ExitNowMsg? then [RenderExitRequested, RenderExitConfirmed] else [])
  }

  /** The state `prepare_to_exit` leaves the task in over the waiting messages `msgs`. */
  function DrainState(msgs: seq<Msg>): TaskState
  {
    var k := LeadingReaps(msgs);
    if k == |msgs| then Draining
    else if msgs[k].ExitNowMsg? then Terminated
    else Failed(UnexpectedMessageAfterPrepareToExit)
  }

  /** The messages still waiting after `prepare_to_exit`. */
  function DrainRest(msgs: seq<Msg>): (rest: seq<Msg>)
    ensures |rest| <= |msgs|
  {
    var k := LeadingReaps(msgs);
    if k == |msgs| then [] else msgs[k + 1..]
  }

  lemma ReapEventsSnoc(msgs: seq<Msg>, i: nat)
    requires i < |msgs| && msgs[i].ReapLayoutDataMsg?
    ensures ReapEvents(msgs[..i + 1]) == ReapEvents(msgs[..i]) + [LayoutDataReaped(msgs[i].layoutData)]
  {
    assert msgs[..i + 1][..i] == msgs[..i];
  }

  /** The drain loop stops at the first message that is not a reap, or at the end of the queue. */
  lemma DrainStopsAt(msgs: seq<Msg>, i: nat)
    requires i <= LeadingReaps(msgs)
    requires i == |msgs| || !msgs[i].ReapLayoutDataMsg?
    ensures i == LeadingReaps(msgs)
  {
  }

  lemma DrainCases(msgs: seq<Msg>)
    ensures var k := LeadingReaps(msgs);
            && (k == |msgs| ==>
                  && DrainEvents(msgs) == [ExitAcknowledged] + ReapEvents(msgs[..k])
                  && DrainState(msgs) == Draining && DrainRest(msgs) == [])
            && (k < |msgs| && msgs[k].ExitNowMsg? ==>
                  && DrainEvents(msgs) == [ExitAcknowledged] + ReapEvents(msgs[..k]) + [RenderExitRequested, RenderExitConfirmed]
                  && DrainState(msgs) == Terminated && DrainRest(msgs) == msgs[k + 1..])
            && (k < |msgs| && !msgs[k].ExitNowMsg? ==>
                  && DrainEvents(msgs) == [ExitAcknowledged] + ReapEvents(msgs[..k])
                  && DrainState(msgs) == Failed(UnexpectedMessageAfterPrepareToExit)
                  && DrainRest(msgs) == msgs[k + 1..])
  {
  }

  /**
   * The protocol the log keeps: while running nothing of the handshake has
   * been sent; once the exit is acknowledged only reaps and the render-exit
   * handshake follow; a terminated task ended with that handshake.
   */
  ghost predicate ProtocolHolds(state: TaskState, log: seq<Event>)
  {
    && (state == Running ==> forall k :: 0 <= k < |log| ==> !IsShutdownEvent(log[k]))
    && (state == Draining ==> ExitAcknowledged in log)
    && (forall i, j :: 0 <= i < j < |log| && log[i] == ExitAcknowledged ==>
          log[j].LayoutDataReaped? || log[j] == RenderExitRequested || log[j] == RenderExitConfirmed)
    && (state == Terminated ==>
          |log| >= 2 && log[|log| - 2] == RenderExitRequested && log[|log| - 1] == RenderExitConfirmed)
  }

  lemma AppendOrdinaryKeepsProtocol(log: seq<Event>, extra: seq<Event>)
    requires ProtocolHolds(Running, log)
    requires forall e :: e in extra ==> !IsShutdownEvent(e)
    ensures ProtocolHolds(Running, log + extra)
  {
    forall k | 0 <= k < |log + extra| ensures !IsShutdownEvent((log + extra)[k]) {
      if k >= |log| {
        assert (log + extra)[k] == extra[k - |log|];
      }
    }
  }

  class LayoutTask {
    const id: PipelineId
    const collab: Collaborators
    /** The messages that have arrived and not yet been received. */
    var port: seq<Msg>
    var state: TaskState
    /** The viewport size of the last reflow. */
    var screenSize: Option<Size>
    /** The display list of the last display reflow. */
    var displayList: Option<DisplayList>
    /** The author stylesheets added to the cascade rule set. */
    var stylesheets: seq<Stylesheet>
    var log: seq<Event>

    ghost predicate Valid()
      reads this
    {
      ProtocolHolds(state, log)
    }

    /** `LayoutTask::new`: running, with no viewport size, display list or log yet. */
    constructor (id: PipelineId, collab: Collaborators, port: seq<Msg>)
      ensures Valid()
      ensures this.id == id && this.collab == collab && this.port == port
      ensures state == Running && screenSize == None && displayList == None
      ensures stylesheets == [] && log == []
    {
      this.id := id;
      this.collab := collab;
      this.port := port;
      state := Running;
      screenSize := None;
      displayList := None;
      stylesheets := [];
      log := [];
    }

    /** `start`: handle requests until one says to stop or no message is waiting. */
    method Start()
      requires Valid() && state == Running
      modifies this
      ensures Valid()
      ensures state != Running || port == []
      ensures old(log) <= log
    {
      while state == Running && port != []
        invariant Valid()
        invariant old(log) <= log
        decreases |port|
      {
        var keepGoing := HandleRequest();
        if !keepGoing {
          break;
        }
      }
    }

    /**
     * `handle_request`: receive one message and dispatch it. The answer is
     * false after `PrepareToExitMsg` and `ExitNowMsg`, and after a failure
     * (where servo's layout task unwinds instead of answering).
     */
    method HandleRequest() returns (keepGoing: bool)
      requires Valid() && state == Running && port != []
      modifies this
      ensures Valid()
      ensures |port| < |old(port)|
      ensures old(log) <= log
      ensures keepGoing <==> state == Running
      ensures old(port[0]).PrepareToExitMsg? || old(port[0]).ExitNowMsg? ==> !keepGoing
      ensures !keepGoing ==> old(port[0]).PrepareToExitMsg? || old(port[0]).ExitNowMsg? || state.Failed?
      ensures match old(port[0])
        case AddStylesheetMsg(sheet) =>
          && stylesheets == old(stylesheets) + [sheet] && log == old(log) && state == Running
          && port == old(port[1..]) && screenSize == old(screenSize) && displayList == old(displayList)
        case ReflowMsg(data) =>
          var r := ReflowSpec(id, collab, old(stylesheets), old(screenSize), data);
          && log == old(log) + r.events && screenSize == Some(data.windowSize)
          && displayList == (if r.builtList.Some? then r.builtList else old(displayList))
          && state == (if r.failure.Some? then Failed(r.failure.value) else Running)
          && port == old(port[1..]) && stylesheets == old(stylesheets)
        case QueryMsg(q) =>
          var r := QueryAnswer(old(displayList), q);
          && log == old(log) + (if r.Some? then [QueryAnswered(r.value)] else [])
          && state == (if r.Some? then Running else Failed(NoDisplayList))
          && port == old(port[1..]) && stylesheets == old(stylesheets)
          && screenSize == old(screenSize) && displayList == old(displayList)
        case ReapLayoutDataMsg(d) =>
          && log == old(log) + [LayoutDataReaped(d)] && state == Running
          && port == old(port[1..]) && stylesheets == old(stylesheets)
          && screenSize == old(screenSize) && displayList == old(displayList)
        case PrepareToExitMsg =>
          && log == old(log) + DrainEvents(old(port[1..]))
          && state == DrainState(old(port[1..])) && port == DrainRest(old(port[1..]))
          && stylesheets == old(stylesheets) && screenSize == old(screenSize) && displayList == old(displayList)
        case ExitNowMsg =>
          && log == old(log) + [RenderExitRequested, RenderExitConfirmed] && state == Terminated
          && port == old(port[1..])
          && stylesheets == old(stylesheets) && screenSize == old(screenSize) && displayList == old(displayList)
    {
      var m := port[0];
      port := port[1..];
      match m {
      case AddStylesheetMsg(sheet) =>
        stylesheets := stylesheets + [sheet];
      case ReflowMsg(data) =>
        HandleReflow(data);
      case QueryMsg(q) =>
        HandleQuery(q);
      case ReapLayoutDataMsg(d) =>
        AppendOrdinaryKeepsProtocol(log, [LayoutDataReaped(d)]);
        log := log + [LayoutDataReaped(d)];
      case PrepareToExitMsg =>
        PrepareToExit();
        return false;
      case ExitNowMsg =>
        ExitNow();
        return false;
      }
      keepGoing := state == Running;
    }

    /**
     * `prepare_to_exit`: acknowledge at once, then receive only reap messages
     * until `ExitNowMsg`, which shuts down; any other message fails the task.
     * With the queue exhausted first the task is left draining, waiting for
     * the next message.
     */
    method PrepareToExit()
      requires Valid() && state == Running
      modifies this
      ensures Valid()
      ensures log == old(log) + DrainEvents(old(port))
      ensures state == DrainState(old(port)) && port == DrainRest(old(port))
      ensures stylesheets == old(stylesheets) && screenSize == old(screenSize) && displayList == old(displayList)
    {
      ghost var msgs := port;
      ghost var base := log;
      log := log + [ExitAcknowledged];
      state := Draining;
      ghost var k := ReceiveReaps();
      DrainCases(msgs);
      if port != [] {
        var m := port[0];
        port := port[1..];
        if m.ExitNowMsg? {
          DrainingProtocol(base, msgs[..k]);
          ExitNow();
          assert log == base + DrainEvents(msgs);
        } else {
          state := Failed(UnexpectedMessageAfterPrepareToExit);
          assert log == base + DrainEvents(msgs);
        }
      } else {
        assert log == base + DrainEvents(msgs);
      }
      assert state == DrainState(msgs);
      DrainProtocol(base, msgs);
    }

    /** The receive loop of `prepare_to_exit`: handle reap messages while the next message is one. */
    method ReceiveReaps() returns (ghost handled: nat)
      modifies this`log, this`port
      ensures handled == LeadingReaps(old(port))
      ensures port == old(port)[handled..]
      ensures log == old(log) + ReapEvents(old(port)[..handled])
    {
      ghost var msgs := port;
      handled := 0;
      assert msgs[..0] == [];
      while port != [] && port[0].ReapLayoutDataMsg?
        invariant 0 <= handled <= LeadingReaps(msgs) && port == msgs[handled..]
        invariant log == old(log) + ReapEvents(msgs[..handled])
        decreases |port|
      {
        ReapEventsSnoc(msgs, handled);
        log := log + [LayoutDataReaped(port[0].layoutData)];
        port := port[1..];
        handled := handled + 1;
      }
      DrainStopsAt(msgs, handled);
    }

    /** `exit_now`: ask the renderer to exit and wait for its reply. */
    method ExitNow()
      requires Valid() && (state == Running || state == Draining)
      modifies this`log, this`state
      ensures Valid()
      ensures log == old(log) + [RenderExitRequested, RenderExitConfirmed] && state == Terminated
    {
      ExitNowKeepsProtocol(state, log);
      log := log + [RenderExitRequested];
      log := log + [RenderExitConfirmed];
      state := Terminated;
    }

    /**
     * `handle_reflow`: compute whether this is a full restyle and store the new
     * viewport size, match selectors unless the damage is reflow-only, build
     * the flow tree, propagate and aggregate its damage, solve constraints,
     * build and send the display list for a display reflow, and signal script.
     */
    method HandleReflow(data: Reflow)
      requires Valid() && state == Running
      modifies this
      ensures Valid()
      ensures var r := ReflowSpec(id, collab, old(stylesheets), old(screenSize), data);
              && log == old(log) + r.events
              && screenSize == Some(data.windowSize)
              && displayList == (if r.builtList.Some? then r.builtList else old(displayList))
              && state == (if r.failure.Some? then Failed(r.failure.value) else Running)
      ensures port == old(port) && stylesheets == old(stylesheets)
    {
      ReflowEventsOrdinary(id, collab, stylesheets, screenSize, data);
      AppendOrdinaryKeepsProtocol(log, ReflowSpec(id, collab, stylesheets, screenSize, data).events);
      var events := [ImageCacheReset];
      var allStyleDamage := data.damage == ContentChangedDocumentDamage;
      if screenSize != Some(data.windowSize) {
        allStyleDamage := true;
      }
      assert allStyleDamage == AllStyleDamage(data.damage, screenSize, data.windowSize);
      screenSize := Some(data.windowSize);
      events := events + [StyleInitialized];
      if data.damage != ReflowDocumentDamage {
        events := events + [SelectorsMatched];
      }
      assert events == StyledEvents(data.damage);
      var slot := collab.constructFlows(data.documentRoot, stylesheets);
      if slot.None? {
        log := log + events;
        state := Failed(NoLayoutDataForRoot);
        return;
      }
      if !slot.value.FlowConstructionResult? {
        log := log + events;
        state := Failed(NoFlowAtRoot);
        return;
      }
      var damage := RunDamagePasses(slot.value.flow, allStyleDamage, collab.rules);
      events := events + [DamageComputed(allStyleDamage, damage), WidthsBubbled, WidthsAssigned, HeightsAssigned];
      if data.goal == ReflowForDisplay {
        var list := collab.buildDisplayList(data.documentRoot, stylesheets, data.windowSize);
        var color := ResolvePageBackground(data.documentRoot);
        displayList := Some(list);
        events := events + [RenderLayerSent(RenderLayer(list, color))];
      }
      events := events + [ScriptJoined, ReflowCompleted(id, data.id)];
      log := log + events;
    }
    /** `handle_query`: answer from the cached display list. */
    method HandleQuery(q: LayoutQuery)
      requires Valid() && state == Running
      modifies this`log, this`state
      ensures Valid()
      ensures var r := QueryAnswer(displayList, q);
              && log == old(log) + (if r.Some? then [QueryAnswered(r.value)] else [])
              && state == (if r.Some? then Running else Failed(NoDisplayList))
    {
      match q
      case ContentBoxQuery(node) =>
        if displayList.None? {
          state := Failed(NoDisplayList);
          return;
        }
        var rect := UnionBoxesForNode(None, displayList.value, node);
        AppendOrdinaryKeepsProtocol(log, [QueryAnswered(ContentBoxResponse(rect.GetOr(ZeroRect)))]);
        log := log + [QueryAnswered(ContentBoxResponse(rect.GetOr(ZeroRect)))];
      case ContentBoxesQuery(node) =>
        if displayList.None? {
          state := Failed(NoDisplayList);
          return;
        }
        var boxes := AddBoxesForNode([], displayList.value, node);
        assert boxes == Matches(displayList.value, node);
        AppendOrdinaryKeepsProtocol(log, [QueryAnswered(ContentBoxesResponse(boxes))]);
        log := log + [QueryAnswered(ContentBoxesResponse(boxes))];
      case HitTestQuery(point) =>
        var response: Option<NodeId> := None;
        if displayList.Some? {
          var hit := HitTest(point.x, point.y, displayList.value);
          if hit.Some? {
            response := Some(hit.value.base.extra);
          }
        }
        AppendOrdinaryKeepsProtocol(log, [QueryAnswered(HitTestResult(response))]);
        log := log + [QueryAnswered(HitTestResult(response))];
    }
  }

  /** Handling reap messages after the acknowledgement keeps the task in protocol. */
  lemma DrainingProtocol(base: seq<Event>, handled: seq<Msg>)
    requires ProtocolHolds(Running, base)
    ensures ProtocolHolds(Draining, base + [ExitAcknowledged] + ReapEvents(handled))
  {
    var log := base + [ExitAcknowledged] + ReapEvents(handled);
    ReapEventsAreReaps(handled);
    assert log[|base|] == ExitAcknowledged;
    forall i, j | 0 <= i < j < |log| && log[i] == ExitAcknowledged
      ensures log[j].LayoutDataReaped? || log[j] == RenderExitRequested || log[j] == RenderExitConfirmed
    {
      assert log[j] in ReapEvents(handled);
    }
  }

  lemma ExitNowKeepsProtocol(state: TaskState, log: seq<Event>)
    requires state == Running || state == Draining
    requires ProtocolHolds(state, log)
    ensures ProtocolHolds(Terminated, log + [RenderExitRequested, RenderExitConfirmed])
  {
    var l := log + [RenderExitRequested, RenderExitConfirmed];
    forall i, j | 0 <= i < j < |l| && l[i] == ExitAcknowledged
      ensures l[j].LayoutDataReaped? || l[j] == RenderExitRequested || l[j] == RenderExitConfirmed
    {
      if j < |log| {
        assert l[i] == log[i] && l[j] == log[j];
      }
    }
  }

  /**
   * Whatever messages are waiting when the exit is prepared, the task stays
   * in protocol: after the acknowledgement it sends only reaps and then,
   * on `ExitNowMsg`, the render-exit handshake, which ends a terminated log.
   */
  lemma DrainProtocol(base: seq<Event>, msgs: seq<Msg>)
    requires ProtocolHolds(Running, base)
    ensures ProtocolHolds(DrainState(msgs), base + DrainEvents(msgs))
  {
    var k := LeadingReaps(msgs);
    DrainingProtocol(base, msgs[..k]);
    var l0 := base + [ExitAcknowledged] + ReapEvents(msgs[..k]);
    if k < |msgs| && msgs[k].ExitNowMsg? {
      ExitNowKeepsProtocol(Draining, l0);
      assert base + DrainEvents(msgs) == l0 + [RenderExitRequested, RenderExitConfirmed];
    } else {
      assert base + DrainEvents(msgs) == l0;
    }
  }
}
