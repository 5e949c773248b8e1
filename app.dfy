/**
 * `src/app.rs`: the application loop. A key press is offered to the
 * components in order until one answers with an action other than `Noop`;
 * the actions then drained from the channel flip the app's flags and are
 * offered to every component's `update`. The terminal, the drawing and the
 * components' own handling are not modelled: what each component answers is
 * a parameter, and the action channel is the sequence of actions sent and
 * not yet received.
 */
module AppLoop {
  import opened Wrappers
  import opened Ui
  import opened Seqs

  /** The components of the app, in the order events reach them. */
  datatype ComponentName = HomeView | SearchBox | HelpView | TimerView

  /**
   * The actions the dispatch loop sends for one key press, given each
   * component's answer in order: every `Some` answer is sent, and the first
   * one other than `Noop` ends the loop.
   */
  function Dispatched(replies: seq<Option<Action>>): (r: seq<Action>)
    ensures |r| <= |replies|
  {
    if replies == [] then []
    else match replies[0]
      case None => Dispatched(replies[1..])
      case Some(a) => if a != Noop then [a] else [a] + Dispatched(replies[1..])
  }

  /** Every action the dispatch sends, except possibly the last, is `Noop`. */
  lemma {:induction false} OnlyLastDispatchedActs(replies: seq<Option<Action>>)
    ensures forall i :: 0 <= i < |Dispatched(replies)| - 1 ==> Dispatched(replies)[i] == Noop
  {
    if replies != [] {
      OnlyLastDispatchedActs(replies[1..]);
    }
  }

  /** Whether a component's answer stops the propagation. */
  predicate Stops(reply: Option<Action>) {
    reply.Some? && reply.value != Noop
  }

  /**
   * When component `k` is the first to answer with a real action, the
   * components after it are never heard: the dispatch sends the `Noop`s
   * answered before `k`, then that action.
   */
  lemma {:induction false} DispatchStopsAtFirstAction(replies: seq<Option<Action>>, k: nat)
    requires k < |replies| && Stops(replies[k])
    requires forall j :: 0 <= j < k ==> !Stops(replies[j])
    ensures Dispatched(replies) == Dispatched(replies[..k]) + [replies[k].value]
  {
    if k > 0 {
      assert replies[1..][..k - 1] == replies[..k][1..];
      DispatchStopsAtFirstAction(replies[1..], k - 1);
    }
  }

  /** When no component answers with a real action, every answer is sent, in order, and all of them are `Noop`. */
  lemma {:induction false} NoopsPropagate(replies: seq<Option<Action>>)
    requires forall j :: 0 <= j < |replies| ==> !Stops(replies[j])
    ensures Dispatched(replies) == Somes(replies)
    ensures forall i :: 0 <= i < |Dispatched(replies)| ==> Dispatched(replies)[i] == Noop
  {
    if replies != [] {
      NoopsPropagate(replies[1..]);
    }
  }

  /** The actions the app loop sends for one terminal event; only key presses reach the components. */
  function EventActions(event: Event, replies: seq<Option<Action>>): seq<Action> {
    match event
    case QuitEvent => [Quit]
    case TickEvent => [Tick]
    case RenderEvent => [Render]
    case ResizeEvent(w, h) => [Resize(w, h)]
    case Key(key) => if key.kind == Press then Dispatched(replies) else []
    case OtherEvent => []
  }

  /** A key that is not pressed (a release or a repeat) sends nothing. */
  lemma OnlyPressesDispatch(key: KeyEvent, replies: seq<Option<Action>>)
    requires key.kind != Press
    ensures EventActions(Key(key), replies) == []
  {
  }

  /** The part of the app the reducer changes. */
  datatype Flags = Flags(shouldQuit: bool, shouldPlay: bool, lastTickKeyEvents: seq<KeyEvent>)

  /** The reducer's effect on the flags of one received action. */
  function Reduce(flags: Flags, action: Action): Flags {
    match action
    case Tick => flags.(lastTickKeyEvents := [])
    case Quit => flags.(shouldQuit := true)
    case TogglePlay => flags.(shouldPlay := !flags.shouldPlay)
    case _ => flags
  }

  /** The reducer's effect of a run of received actions, oldest first. */
  function ReduceAll(flags: Flags, actions: seq<Action>): Flags
    decreases |actions|
  {
    if actions == [] then flags else ReduceAll(Reduce(flags, actions[0]), actions[1..])
  }

  /** Quit sets `should_quit`, TogglePlay flips `should_play`, Tick empties the key list; nothing else touches the flags. */
  lemma ReduceCases(flags: Flags, action: Action)
    ensures action == Quit ==> Reduce(flags, action) == flags.(shouldQuit := true)
    ensures action == TogglePlay ==> Reduce(flags, action) == flags.(shouldPlay := !flags.shouldPlay)
    ensures action == Tick ==> Reduce(flags, action) == flags.(lastTickKeyEvents := [])
    ensures action !in {Quit, TogglePlay, Tick} ==> Reduce(flags, action) == flags
  {
  }

  /** Nothing clears `should_quit`: once set it stays set, whatever is received afterwards. */
  lemma {:induction false} QuitIsFinal(flags: Flags, actions: seq<Action>)
    requires flags.shouldQuit
    ensures ReduceAll(flags, actions).shouldQuit
    decreases |actions|
  {
    if actions != [] {
      QuitIsFinal(Reduce(flags, actions[0]), actions[1..]);
    }
  }

  /** `should_play` ends up flipped once per TogglePlay received. */
  lemma {:induction false} PlayFlipsPerToggle(flags: Flags, actions: seq<Action>)
    ensures ReduceAll(flags, actions).shouldPlay == (flags.shouldPlay != (Toggles(actions) % 2 == 1))
    decreases |actions|
  {
    if actions != [] {
      PlayFlipsPerToggle(Reduce(flags, actions[0]), actions[1..]);
    }
  }

  /** The number of TogglePlay actions in `actions`. */
  function Toggles(actions: seq<Action>): nat {
    if actions == [] then 0 else (if actions[0] == TogglePlay then 1 else 0) + Toggles(actions[1..])
  }

  /** The values of the `Some` answers, in order. */
  function Somes(replies: seq<Option<Action>>): (r: seq<Action>)
    ensures |r| <= |replies|
  {
    if replies == [] then []
    else (if replies[0].Some? then [replies[0].value] else []) + Somes(replies[1..])
  }

  /** One more answer at the end adds its value, if any, at the end. */
  lemma {:induction false} SomesSnoc(replies: seq<Option<Action>>, reply: Option<Action>)
    ensures Somes(replies + [reply]) == Somes(replies) + (if reply.Some? then [reply.value] else [])
  {
    if replies != [] {
      assert (replies + [reply])[1..] == replies[1..] + [reply];
      SomesSnoc(replies[1..], reply);
      ConcatAssoc(if replies[0].Some? then [replies[0].value] else [], Somes(replies[1..]), if reply.Some? then [reply.value] else []);
    } else {
      assert [] + [reply] == [reply];
    }
  }

  class App {
    var components: seq<ComponentName>
    var shouldQuit: bool
    var shouldPlay: bool
    var lastTickKeyEvents: seq<KeyEvent>
    /** The action channel: actions sent and not yet received, oldest first. */
    var channel: seq<Action>

    /** `App::new`: home, search, help and timer in that order; both flags false; no key events; nothing sent. */
    constructor ()
      ensures components == [HomeView, SearchBox, HelpView, TimerView]
      ensures !shouldQuit && !shouldPlay && lastTickKeyEvents == [] && channel == []
    {
      components := [HomeView, SearchBox, HelpView, TimerView];
      shouldQuit := false;
      shouldPlay := false;
      lastTickKeyEvents := [];
      channel := [];
    }

    function FlagsOf(): Flags
      reads this
    {
      Flags(shouldQuit, shouldPlay, lastTickKeyEvents)
    }

    /**
     * One terminal event: quit, tick, render and resize events are sent as
     * the matching action; a key press goes through the dispatch loop; any
     * other event is dropped.
     */
    method HandleEvent(event: Event, replies: seq<Option<Action>>)
      requires |replies| == |components|
      modifies this`channel
      ensures channel == old(channel) + EventActions(event, replies)
    {
      match event {
        case QuitEvent => channel := channel + [Quit];
        case TickEvent => channel := channel + [Tick];
        case RenderEvent => channel := channel + [Render];
        case ResizeEvent(x, y) => channel := channel + [Resize(x, y)];
        case Key(key) =>
          if key.kind == Press {
            DispatchKey(replies);
          }
        case OtherEvent =>
      }
    }

    /**
     * The dispatch loop for a key press: `replies[i]` is what component `i`
     * answers; each answer is sent, and an answer other than `Noop` stops
     * the propagation.
     */
    method DispatchKey(replies: seq<Option<Action>>)
      requires |replies| == |components|
      modifies this`channel
      ensures channel == old(channel) + Dispatched(replies)
    {
      var i := 0;
      while i < |components|
        invariant i <= |components|
        invariant old(channel) + Dispatched(replies) == channel + Dispatched(replies[i..])
      {
        assert replies[i..][1..] == replies[i + 1..];
        var reply := replies[i];
        if reply.Some? {
          var action := reply.value;
          ConcatAssoc(channel, [action], Dispatched(replies[i + 1..]));
          channel := channel + [action];
          if action != Noop {
            break;
          }
        }
        i := i + 1;
      }
    }

    /**
     * One pass of the drain loop: receive the oldest action, apply the
     * reducer, and offer the action to every component; `updates[i]` is what
     * component `i`'s `update` answers, and each `Some` is sent. A Render
     * with no components skips the offer (`continue`).
     */
    method ReceiveOne(updates: seq<Option<Action>>)
      requires channel != [] && |updates| == |components|
      modifies this`channel, this`shouldQuit, this`shouldPlay, this`lastTickKeyEvents
      ensures FlagsOf() == Reduce(old(FlagsOf()), old(channel[0]))
      ensures old(channel[0]) == Render && components == [] ==> channel == old(channel[1..])
      ensures old(channel[0]) != Render || components != [] ==> channel == old(channel[1..]) + Somes(updates)
    {
      var action := channel[0];
      channel := channel[1..];
      match action {
        case Tick => lastTickKeyEvents := [];
        case Quit => shouldQuit := true;
        case TogglePlay => shouldPlay := !shouldPlay;
        case Render =>
          if |components| == 0 {
            return;
          }
        case _ =>
      }
      ghost var start := channel;
      var i := 0;
      while i < |components|
        invariant i <= |components|
        invariant channel == start + Somes(updates[..i])
        invariant FlagsOf() == Reduce(old(FlagsOf()), action)
      {
        assert updates[..i + 1] == updates[..i] + [updates[i]];
        SomesSnoc(updates[..i], updates[i]);
        ConcatAssoc(start, Somes(updates[..i]), if updates[i].Some? then [updates[i].value] else []);
        if updates[i].Some? {
          channel := channel + [updates[i].value];
        }
        i := i + 1;
      }
      assert updates[..i] == updates;
    }

    /**
     * The drain loop `while let Ok(action) = action_rx.try_recv()`: receive
     * until the channel is empty, `updates[s]` being the components' answers
     * to the `s`-th action received. `received` lists the actions received:
     * they are the old channel followed by what the components re-sent, in
     * order, and what is left is the rest of that stream. Each action was
     * already in that stream when it was received, so nothing is received
     * once the channel is empty.
     */
    method Drain(updates: seq<seq<Option<Action>>>) returns (ghost received: seq<Action>)
      requires forall s :: 0 <= s < |updates| ==> |updates[s]| == |components|
      modifies this`channel, this`shouldQuit, this`shouldPlay, this`lastTickKeyEvents
      ensures FlagsOf() == ReduceAll(old(FlagsOf()), received)
      ensures |received| <= |updates|
      ensures |received| < |updates| ==> channel == []
      ensures received + channel == old(channel) + Resent(received, updates[..|received|], components)
      ensures forall s :: 0 <= s < |received| ==> s < |old(channel)| + |Resent(received[..s], updates[..s], components)|
    {
      received := [];
      ghost var initial := FlagsOf();
      var step := 0;
      while channel != [] && step < |updates|
        invariant step <= |updates| && |received| == step
        invariant ReduceAll(initial, received) == FlagsOf()
        invariant received + channel == old(channel) + Resent(received, updates[..step], components)
        invariant Causal(old(channel), received, updates, components)
        decreases |updates| - step
      {
        ghost var action := channel[0];
        ghost var before := channel;
        ghost var resent := Resent(received, updates[..step], components);
        ReceiveOne(updates[step]);
        ghost var offered := Offered(action, updates[step], components);
        assert channel == before[1..] + offered;
        ReduceAllSnoc(initial, received, action);
        ResentSnoc(received, updates[..step], components, action, updates[step]);
        assert updates[..step + 1] == updates[..step] + [updates[step]];
        DrainStep(received, before, offered, old(channel), resent);
        assert |received + before| == |old(channel) + resent|;
        CausalSnoc(old(channel), received, updates, components, action);
        received := received + [action];
        step := step + 1;
      }
    }
  }

  /** What the components re-send when offered `action`: nothing for a Render with no components, else every `Some` answer. */
  function Offered(action: Action, updates: seq<Option<Action>>, components: seq<ComponentName>): seq<Action> {
    if action == Render && components == [] then [] else Somes(updates)
  }

  /** Everything re-sent while the actions `received` were drained, `updates[s]` answering `received[s]`. */
  function Resent(received: seq<Action>, updates: seq<seq<Option<Action>>>, components: seq<ComponentName>): seq<Action>
    requires |updates| == |received|
    decreases |received|
  {
    if received == [] then []
    else
      var n := |received| - 1;
      Resent(received[..n], updates[..n], components) + Offered(received[n], updates[n], components)
  }

  /** Each of the actions `received` was already in the stream of `start` and what the earlier ones re-sent. */
  predicate Causal(start: seq<Action>, received: seq<Action>, updates: seq<seq<Option<Action>>>, components: seq<ComponentName>)
    requires |received| <= |updates|
  {
    forall s :: 0 <= s < |received| ==> s < |start| + |Resent(received[..s], updates[..s], components)|
  }

  /** Receiving one more action that is already in the stream keeps every receive causal. */
  lemma CausalSnoc(start: seq<Action>, received: seq<Action>, updates: seq<seq<Option<Action>>>,
                   components: seq<ComponentName>, action: Action)
    requires |received| < |updates| && Causal(start, received, updates, components)
    requires |received| < |start| + |Resent(received, updates[..|received|], components)|
    ensures Causal(start, received + [action], updates, components)
  {
    var n := |received|;
    forall s | 0 <= s < n + 1
      ensures s < |start| + |Resent((received + [action])[..s], updates[..s], components)|
    {
      assert (received + [action])[..s] == received[..s];
    }
  }

  /** Moving the oldest action of the channel to the received list keeps the stream they form together. */
  lemma DrainStep(received: seq<Action>, before: seq<Action>, offered: seq<Action>, start: seq<Action>, resent: seq<Action>)
    requires before != [] && received + before == start + resent
    ensures (received + [before[0]]) + (before[1..] + offered) == start + (resent + offered)
  {
    calc {
      (received + [before[0]]) + (before[1..] + offered);
      { assert [before[0]] + before[1..] == before; }
      (received + before) + offered;
      start + (resent + offered);
    }
  }

  /** Draining one more action re-sends what it was offered, at the end. */
  lemma ResentSnoc(received: seq<Action>, updates: seq<seq<Option<Action>>>, components: seq<ComponentName>,
                   action: Action, update: seq<Option<Action>>)
    requires |updates| == |received|
    ensures Resent(received + [action], updates + [update], components)
         == Resent(received, updates, components) + Offered(action, update, components)
  {
    assert (received + [action])[..|received|] == received;
    assert (updates + [update])[..|updates|] == updates;
  }

  /** Reducing one more action at the end. */
  lemma {:induction false} ReduceAllSnoc(flags: Flags, actions: seq<Action>, action: Action)
    ensures ReduceAll(flags, actions + [action]) == Reduce(ReduceAll(flags, actions), action)
    decreases |actions|
  {
    if actions != [] {
      assert (actions + [action])[1..] == actions[1..] + [action];
      ReduceAllSnoc(Reduce(flags, actions[0]), actions[1..], action);
    }
  }
}
