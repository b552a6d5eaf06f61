# Layout coordinator of the servo browser engine, modelled in Dafny

This project models the layout task of servo's `layout_task.rs`: the per-pipeline
unit that receives messages from script, runs reflows, answers geometry queries
from its cached display list and shuts down through a two-phase handshake. It
models the decision logic the task runs on plain data, in five parts.

- **Restyle damage** (`flow_damage.dfy`, module `FlowDamage`). A flow tree is an
  arena: node 0 is the root and every other node's parent comes before it. Each
  node's damage is an `array` element that the two traversals update in place.
  - The top-down pass visits nodes by increasing index, so it visits parents
    before children.
  - The bottom-up pass visits nodes by decreasing index, so it visits children
    before parents.
  - `RestyleDamage` is a set of bits. Its "all" value and its `propagate_up` and
    `propagate_down` maps are parameters, so every result holds for any choice
    of them.
  - Each traversal method is proved equal to a specification function, and the
    properties are lemmas about those functions.
- **Queries over the display list** (`display_queries.dfy`, module `DisplayQueries`;
  `geometry.dfy`, module `Geometry`). Display items are clip items that own a
  nested list, or leaf items. The model covers:
  - the content-box accumulator (`Option<Rect>`);
  - the content-boxes accumulator (a growing list of rectangles);
  - the two-phase hit test, a pure recursive function.

  Each is related to an independent reference: `Flatten`, which lists every item
  at every depth with its children before it.
- **Page background** (`page_background.dfy`, module `PageBackground`). This is the
  loop that picks the colour sent with each render layer. It is proved equal to
  a first-match function over the document's preorder.
- **The task itself** (`layout_task.dfy`, module `Layout`). Class `LayoutTask` has
  these fields: the message queue, the task state, the stored viewport size, the
  cached display list, the added stylesheets, and a log of every message the task
  sends.
  - `ReflowSpec` says what one reflow sends, whether it fails, and which display
    list it builds. `QueryAnswer` says what each query replies.
  - `ProtocolHolds` is the shutdown protocol over the log. Every method of
    `LayoutTask` keeps it, except `ReceiveReaps`, the helper that runs the
    receive loop inside `PrepareToExit`.

Where the source calls code defined outside `layout_task.rs`, the model takes that code as a
parameter. The flow constructor and the display-list builder are fields of
`Collaborators`. Every message the source sends becomes an `Event` appended to
the log. Every message it receives comes from the queue `port`, with one
exception: the renderer's reply to the exit request arrives on a reply port of
its own (`layout_task.rs:340-342`) and is logged as the event `RenderExitConfirmed`.

Where the source panics, the model's task moves to `Failed(reason)`:
- there is no layout data at the root;
- flow construction left no flow at the root;
- a content-box or content-boxes query arrives before any display list exists;
- a message other than a reap or `ExitNowMsg` arrives after `PrepareToExitMsg`.

The third case follows the code. Only the hit test has a failure reply
(`Err(())`, `layout_task.rs:623-632`). The two box queries unwrap the display
list (`layout_task.rs:552` and `:575`) and panic when there is none.

## Model

| member | source | states |
|---|---|---|
| Geometry.Union | src/components/main/layout/layout_task.rs:543-546 | the union of two rectangles encloses both, and is enclosed by every rectangle that encloses both |
| Geometry.ContainsPointHalfOpen | src/components/main/layout/layout_task.rs:599-603 | the containment test admits every point of the left and top edges short of the far corner, and excludes every point of the right and bottom edges |
| FlowDamage.PropagatedAt | src/components/main/layout/layout_task.rs:119-131 | after the top-down pass a node keeps all its own bits, holds every bit under full restyle damage, and holds what its parent forces down |
| FlowDamage.PropagatedUnchanged | src/components/main/layout/layout_task.rs:124-130 | without full restyle damage, a node whose parent forces nothing down (and the root) is left unchanged |
| FlowDamage.PropagatedExact | src/components/main/layout/layout_task.rs:119-131 | every bit after the top-down pass was the node's own, came from full restyle damage, or was forced down by its parent |
| FlowDamage.FlowTree.PropagateDamage | src/components/main/layout/layout_task.rs:117-132 | the in-place preorder pass leaves every node's damage equal to the top-down specification of the input damage |
| FlowDamage.FlowTree.ProcessPreorder | src/components/main/layout/layout_task.rs:119-131 | one visit gains the full value under full restyle damage and unions what the updated node forces down into each of its children, changing no other node |
| FlowDamage.FlowTree.PushToChildren | src/components/main/layout/layout_task.rs:126-130 | the inner loop unions the forced damage into exactly the children of the node and leaves every other node alone |
| FlowDamage.AggregatedAt | src/components/main/layout/layout_task.rs:100-106 | after the bottom-up pass a node keeps all its own bits |
| FlowDamage.ChildContributes | src/components/main/layout/layout_task.rs:100-106 | after the bottom-up pass a parent contains `propagate_up` of each child's new damage |
| FlowDamage.AggregatedExact | src/components/main/layout/layout_task.rs:100-106 | and nothing else: every bit is the node's own or some child's upward contribution |
| FlowDamage.FlowTree.ComputeDamage | src/components/main/layout/layout_task.rs:98-108 | the in-place postorder pass leaves every node's damage equal to the bottom-up specification of the input damage |
| FlowDamage.ReflowDamageGrows | src/components/main/layout/layout_task.rs:457-461 | the two passes in sequence never remove a bit, and with full restyle damage every node ends with every bit |
| FlowDamage.PropagatedSaturates | src/components/main/layout/layout_task.rs:120-122 | when `all` is the top element, a full-restyle top-down pass leaves every node with exactly every bit |
| FlowDamage.AggregatedWithin | src/components/main/layout/layout_task.rs:100-106 | the bottom-up pass adds nothing outside a bound that holds every node's input and every upward contribution |
| FlowDamage.ReflowSaturates | src/components/main/layout/layout_task.rs:457-461 | when `all` is the top element, a full-restyle reflow's two passes leave every node with exactly every bit |
| DisplayQueries.Accumulate | src/components/main/layout/layout_task.rs:543-546 | one accumulator step always yields a rectangle enclosing both the new bounds and the previous accumulator |
| DisplayQueries.UnionAllEncloses | src/components/main/layout/layout_task.rs:540-547 | the folded accumulator encloses every bound folded into it and the initial value |
| DisplayQueries.UnionAllLeast | src/components/main/layout/layout_task.rs:540-547 | every rectangle enclosing all folded bounds and the initial value encloses the folded accumulator |
| DisplayQueries.UnionBoxesForNode | src/components/main/layout/layout_task.rs:536-548 | the recursive walk leaves the accumulator equal to the fold of the node's bounds, gathered children first, over the incoming accumulator |
| DisplayQueries.ContentBoxOfUnowned | src/components/main/layout/layout_task.rs:551-554 | when the node owns no item at any depth, the content box is the zero rectangle |
| DisplayQueries.ContentBoxEnclosesOwned | src/components/main/layout/layout_task.rs:536-554 | the content box encloses the bounds of every item the node owns, at any depth, clip or not |
| DisplayQueries.ContentBoxLeast | src/components/main/layout/layout_task.rs:536-554 | when the node owns an item, the content box is the least rectangle enclosing all their bounds |
| DisplayQueries.ContentBoxExample | src/components/main/layout/layout_task.rs:536-554 | two owned items at (0,0) 10x10 and (5,5) 15x15 give the box (0,0) 20x20 |
| DisplayQueries.AddBoxesForNode | src/components/main/layout/layout_task.rs:562-577 | the recursive walk appends exactly the node's matching bounds to the accumulator |
| DisplayQueries.MatchesAreOwnedItems | src/components/main/layout/layout_task.rs:562-571 | the boxes collected are exactly the bounds of the owned items of the whole tree in traversal order, so there are as many as there are owned items |
| DisplayQueries.MatchesMembers | src/components/main/layout/layout_task.rs:562-571 | a rectangle is collected iff some owned item at any depth has it as bounds |
| DisplayQueries.MatchesAppend | src/components/main/layout/layout_task.rs:566-571 | sibling order is preserved: the boxes of a concatenation are the concatenated boxes |
| DisplayQueries.ClipMatchesOrder | src/components/main/layout/layout_task.rs:566-570 | an owned clip's descendants' boxes come before the clip's own bounds |
| DisplayQueries.HitLeaves | src/components/main/layout/layout_task.rs:594-611 | the second loop returns a non-clip item of the level that contains the point, and returns nothing iff no such item exists |
| DisplayQueries.HitLeavesTopmost | src/components/main/layout/layout_task.rs:594-611 | the last non-clip item containing the point wins the second loop |
| DisplayQueries.HitTestSound | src/components/main/layout/layout_task.rs:580-615 | any hit is a non-clip item, found at some depth of the tree, whose bounds contain the point half-open |
| DisplayQueries.HitTestComplete | src/components/main/layout/layout_task.rs:580-615 | the hit test finds nothing iff no non-clip item at any depth contains the point |
| DisplayQueries.HitTestClipsFirst | src/components/main/layout/layout_task.rs:582-592 | the last clip whose nested list has a hit decides the result, whatever the leaf items of the level |
| DisplayQueries.HitTestTopmostLeaf | src/components/main/layout/layout_task.rs:580-611 | with no hit below any clip, the last non-clip item of the level containing the point is the result |
| DisplayQueries.HitTestIgnoresClipBounds | src/components/main/layout/layout_task.rs:582-592 | for every clip, whatever its bounds, a list holding only that clip answers exactly as the clip's nested list does |
| DisplayQueries.HitTestClipBoundsIrrelevant | src/components/main/layout/layout_task.rs:580-611 | replacing the bounds of any clip in a list leaves the hit test's answer unchanged |
| DisplayQueries.HitTestIgnoresClipBoundsExample | src/components/main/layout/layout_task.rs:582-592 | one instance: a clip with zero bounds, which miss (5,5), over a leaf (0,0) 10x10 yields that leaf at (5,5) |
| DisplayQueries.HitTestExamples | src/components/main/layout/layout_task.rs:580-615 | of items A (0,0) 10x10 and B (0,0) 20x20 painted last: (5,5) hits B, (15,15) hits B, (25,25) hits nothing, (0,0) hits B, (10,10) hits B; on A alone, (0,0) hits A and (10,10) hits nothing |
| PageBackground.ResolvePageBackground | src/components/main/layout/layout_task.rs:487-503 | the scan with `break` returns the first-match colour over the document's preorder |
| PageBackground.PageColorFirstMatch | src/components/main/layout/layout_task.rs:489-501 | the first html or body node whose colour is not exactly `rgba(0, 0, 0, 0)` supplies the colour |
| PageBackground.PageColorDefault | src/components/main/layout/layout_task.rs:487-503 | with no such node the colour is white |
| PageBackground.PageColorSkips | src/components/main/layout/layout_task.rs:489-499 | a node that is neither html nor body, or is one with a transparent colour, can be removed anywhere without changing the colour |
| PageBackground.PageColorExamples | src/components/main/layout/layout_task.rs:487-503 | an opaque red html element with a transparent body gives red; both transparent give white |
| Layout.RunDamagePasses | src/components/main/layout/layout_task.rs:457-461 | loading the constructed damage into the flow tree and running both passes yields the bottom-up specification of the top-down specification |
| Layout.ReflowDamage | src/components/main/layout/layout_task.rs:419-429 | the damage handed to constraint solving is a full restyle exactly when content changed or the viewport size differs from the stored one; no node loses a constructed bit; under full restyle every node has every bit |
| Layout.ReflowDamageSaturates | src/components/main/layout/layout_task.rs:419-461 | when `all` is the top element, the damage a full-restyle reflow hands to constraint solving is every bit on every node |
| Layout.RepeatedReflowNotForced | src/components/main/layout/layout_task.rs:419-429 | a second reflow at the size the first one stored, which is not a content change, hands its damage on without full restyle damage |
| Layout.ReflowSelectorMatching | src/components/main/layout/layout_task.rs:441-450 | selector matching runs exactly when the damage level is not reflow-only |
| Layout.ReflowDisplayList | src/components/main/layout/layout_task.rs:359-516 | a reflow fails exactly when construction left no flow at the root; it builds, caches and sends a display list exactly when it completes with the display goal |
| Layout.ReflowJoinBeforeComplete | src/components/main/layout/layout_task.rs:518-523 | a completed reflow ends with the join signal and then the completion notice, each exactly once; a failed reflow sends neither |
| Layout.ReflowEventsOrdinary | src/components/main/layout/layout_task.rs:400-524 | a reflow sends nothing of the shutdown handshake |
| Layout.QueryAnswer | src/components/main/layout/layout_task.rs:528-636 | a query has no reply exactly when it is a box query with no display list; each query kind gets a reply of its own kind, and a hit test always gets one |
| Layout.HitTestReplyMeaning | src/components/main/layout/layout_task.rs:614-634 | the hit-test reply is the failure value iff there is no display list or no non-clip item contains the point; a node it names owns such an item |
| Layout.DrainProtocol | src/components/main/layout/layout_task.rs:313-343 | whatever messages are queued at the exit request, the acknowledgement comes first, only reaps and the render-exit handshake follow, and a terminated log ends with that handshake |
| Layout.LayoutTask.constructor | src/components/main/layout/layout_task.rs:226-252 | a new task is running with no viewport size, no display list, no added stylesheets and an empty log |
| Layout.LayoutTask.Start | src/components/main/layout/layout_task.rs:255-259 | handling requests while running keeps the protocol, only extends the log, and stops when a request says so or the queue is empty |
| Layout.LayoutTask.HandleRequest | src/components/main/layout/layout_task.rs:277-311 | receives one message and dispatches it by kind with the new state stated for each; it answers false after the exit messages and on failure only |
| Layout.LayoutTask.PrepareToExit | src/components/main/layout/layout_task.rs:316-335 | acknowledges before reading further, then handles leading reaps until `ExitNowMsg` terminates or any other message fails the task |
| Layout.LayoutTask.ReceiveReaps | src/components/main/layout/layout_task.rs:318-324 | the receive loop handles exactly the leading reap messages of the queue, logging one reap per message, and stops at the first other message or at the end |
| Layout.LayoutTask.ExitNow | src/components/main/layout/layout_task.rs:339-343 | sends the exit request to the renderer, receives its reply, and terminates |
| Layout.LayoutTask.HandleReflow | src/components/main/layout/layout_task.rs:400-524 | the log, stored viewport size, cached display list and state after a reflow are those of the reflow specification |
| Layout.LayoutTask.HandleQuery | src/components/main/layout/layout_task.rs:528-639 | logs the reply of the query specification, or fails the task when there is none |

## Left out

- Channels, ports, task spawning, `profile(...)` and the `debug!`/`error!` logging are not modelled. A send is an appended `Event` and a receive takes the head of `port`.
- A blocking receive on an empty port becomes a run that stops: `Start` returns, and `PrepareToExit` leaves the task `Draining`.
- `LayoutImageResponder` and `make_on_image_available_cb` are callbacks fired from other tasks. The image-cache reset is recorded as one `ImageCacheReset` event.
- `handle_reap_layout_data` clears a raw pointer; here it is only the `LayoutDataReaped` event.
- The locks around the image cache and the stylist, and the `unsafe` transmutes, are not modelled.
- The flow constructor, selector matching and cascade, the bubble-widths, assign-widths and assign-heights passes, and display-list building are defined outside `layout_task.rs`.
  - Flow construction and display-list building are the functions in `Collaborators`.
  - The three solving passes are recorded only as events, in their order.
  - Selector matching and the per-node style setup are events.
- `Layout.LayoutTask.HandleReflow`: styles, the solved geometry and the display list are not linked. The builder is a function of the document, the stylesheets and the viewport.
- The generic `traverse_preorder`/`traverse_postorder` drivers and `should_process` are not part of this model.
  - The arena's increasing and decreasing index orders stand in for preorder and postorder.
  - The in-order scheduling of the assign-heights pass (`layout_task.rs:180-182`) is not modelled.
- `RestyleDamage`'s bit layout and its `all`, `propagate_up` and `propagate_down` are parameters.
- Floating point is not modelled.
  - The viewport size is taken in app units. `Au::from_px` is not part of this model, so the stored-size comparison is on the converted sizes.
  - The hit-test point is taken in app units, without `Au::from_frac_px`.
  - Colours are integer quadruples with distinguished transparent and white values.
  - The render layer's pixel size (`to_nearest_px`) is not recorded.
- `Geometry.Union` assumes the bounding-box definition of `Rect::union`. The geometry crate is not part of this model.
- Geometry: `Au` wraps a 32-bit integer in the source, but the model's integers are unbounded, so rectangle arithmetic never overflows here.
- `FontContext` and `LayoutContext` construction are not modelled. The layout context's `unwrap` of the screen size cannot fail, because the size is stored first.
- `Layout.LayoutTask.HandleRequest`: on a failure the source's task unwinds. The model's method instead returns false with the state `Failed(reason)`.
- `Layout.LayoutTask.Start`: it states the protocol, the log growth and why it stopped. It does not state the log as a function of the whole queue.
- The stylesheet's origin (author) and the cascade rule set's contents are not modelled. The rule set is the list of sheets added.
