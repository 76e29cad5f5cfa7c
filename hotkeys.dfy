/** The global-hotkey control plane (voicekeyboard/hotkeys.py):
    `HotkeysManager` registers three logical hotkeys with the OS keyboard
    facility, and `HotkeysService` owns the service thread that keeps them
    registered. The thread is modelled by whether it is alive; its
    registrations take effect when `start` spawns it. The facility is the
    `Keyboard` object below, which records every call made into it. */
module Hotkeys {

  /** A callback handed to a hotkey (`start_fn` or `stop_fn`), by identity. */
  datatype Callback = Callback(id: nat)

  /** A registration with the keyboard facility. */
  datatype Binding =
    | Hotkey(combo: string, action: Callback)     // `add_hotkey(combo, fn)`
    | OnPress(key: string, action: Callback)      // `on_press_key(key, ...)`
    | OnRelease(key: string, action: Callback)    // `on_release_key(key, ...)`

  /** A call into the keyboard facility: a registration,
      `clear_all_hotkeys`, or `unhook_all`. */
  datatype KeyboardCall = Register(binding: Binding) | ClearAll | UnhookAll

  /** A keyboard event as the facility reports it to its registrations: a
      key goes down while the keys named by `held` (in the facility's combo
      notation, the new key included) are held, or a key goes up. A key-down
      reaches both the hooks on that key and a combo matching `held`. */
  datatype KeyEvent = KeyDown(key: string, held: string) | KeyUp(key: string)

  /** The hotkey strings read from the settings at registration time. */
  datatype HotkeyCombos = HotkeyCombos(start: string, stop: string, pushToTalk: string)

  predicate Fires(b: Binding, ev: KeyEvent)
  {
    match b
    case Hotkey(combo, _) => ev.KeyDown? && ev.held == combo
    case OnPress(key, _) => ev.KeyDown? && ev.key == key
    case OnRelease(key, _) => ev.KeyUp? && ev.key == key
  }

  /** The callback one registration invokes for an event, if it fires. */
  function Invoked(b: Binding, ev: KeyEvent): seq<Callback>
  {
    if Fires(b, ev) then [b.action] else []
  }

  /** The callbacks an event invokes, in registration order. */
  function Triggered(bindings: seq<Binding>, ev: KeyEvent): seq<Callback>
  {
    if bindings == [] then [] else Invoked(bindings[0], ev) + Triggered(bindings[1..], ev)
  }

  /** Triggering is compositional over the registration order. */
  lemma {:induction false} TriggeredConcat(a: seq<Binding>, b: seq<Binding>, ev: KeyEvent)
    ensures Triggered(a + b, ev) == Triggered(a, ev) + Triggered(b, ev)
    decreases |a|
  {
    if a == [] {
      assert a + b == b;
    } else {
      var ab := a + b;
      assert ab[0] == a[0] && ab[1..] == a[1..] + b;
      TriggeredConcat(a[1..], b, ev);
      var x := Invoked(a[0], ev);
      assert Triggered(ab, ev) == x + (Triggered(a[1..], ev) + Triggered(b, ev));
      assert Triggered(a, ev) == x + Triggered(a[1..], ev);
    }
  }

  /** The registrations `clear_all_hotkeys` leaves in place. The `keyboard`
      library documents it as `unhook_all_hotkeys`, which removes the
      `add_hotkey` registrations only; the press and release hooks of
      `on_press_key`/`on_release_key` stay, in order. */
  function KeyHooks(bs: seq<Binding>): (r: seq<Binding>)
    ensures forall i :: 0 <= i < |r| ==> !r[i].Hotkey?
    ensures forall b :: b in r <==> b in bs && !b.Hotkey?
  {
    if bs == [] then []
    else
      assert bs == [bs[0]] + bs[1..];
      (if bs[0].Hotkey? then [] else [bs[0]]) + KeyHooks(bs[1..])
  }

  /** After `clear_all_hotkeys` the held keys no longer matter: a key-down
      invokes the same callbacks whatever else is held. An event that no
      combo matched invokes exactly what it invoked before. */
  lemma {:induction false} TriggeredKeyHooks(bs: seq<Binding>, ev: KeyEvent, otherHeld: string)
    ensures ev.KeyDown? ==> Triggered(KeyHooks(bs), ev) == Triggered(KeyHooks(bs), KeyDown(ev.key, otherHeld))
    ensures (forall i :: 0 <= i < |bs| && bs[i].Hotkey? ==> !Fires(bs[i], ev)) ==>
              Triggered(KeyHooks(bs), ev) == Triggered(bs, ev)
    decreases |bs|
  {
    if bs != [] {
      var kept := if bs[0].Hotkey? then [] else [bs[0]];
      TriggeredKeyHooks(bs[1..], ev, otherHeld);
      TriggeredConcat(kept, KeyHooks(bs[1..]), ev);
      if ev.KeyDown? {
        TriggeredConcat(kept, KeyHooks(bs[1..]), KeyDown(ev.key, otherHeld));
      }
      if !bs[0].Hotkey? {
        assert kept[1..] == [];
      }
      if forall i :: 0 <= i < |bs| && bs[i].Hotkey? ==> !Fires(bs[i], ev) {
        assert forall i :: 0 <= i < |bs[1..]| && bs[1..][i].Hotkey? ==> !Fires(bs[1..][i], ev) by {
          forall i | 0 <= i < |bs[1..]| ensures bs[1..][i] == bs[i + 1] { }
        }
      }
    }
  }

  function RegisterCalls(bindings: seq<Binding>): (r: seq<KeyboardCall>)
    ensures |r| == |bindings|
    ensures forall i :: 0 <= i < |r| ==> r[i] == Register(bindings[i])
  {
    if bindings == [] then [] else [Register(bindings[0])] + RegisterCalls(bindings[1..])
  }

  /** The OS keyboard facility (the `keyboard` library's global state). */
  class Keyboard {
    var bindings: seq<Binding>
    var calls: seq<KeyboardCall>

    constructor ()
      ensures bindings == [] && calls == []
    {
      bindings, calls := [], [];
    }

    method Register(b: Binding)
      modifies this
      ensures bindings == old(bindings) + [b]
      ensures calls == old(calls) + [KeyboardCall.Register(b)]
    {
      bindings := bindings + [b];
      calls := calls + [KeyboardCall.Register(b)];
    }

    /** `clear_all_hotkeys`: removes the combos, keeps the key hooks. */
    method ClearAllHotkeys()
      modifies this
      ensures bindings == KeyHooks(old(bindings))
      ensures calls == old(calls) + [ClearAll]
    {
      bindings := KeyHooks(bindings);
      calls := calls + [ClearAll];
    }

    /** `unhook_all`: removes every registration, key hooks included. */
    method UnhookAll()
      modifies this
      ensures bindings == []
      ensures calls == old(calls) + [KeyboardCall.UnhookAll]
    {
      bindings := [];
      calls := calls + [KeyboardCall.UnhookAll];
    }
  }

  class HotkeysManager {
    const startFn: Callback
    const stopFn: Callback

    constructor (startFn: Callback, stopFn: Callback)
      ensures this.startFn == startFn && this.stopFn == stopFn
    {
      this.startFn, this.stopFn := startFn, stopFn;
    }

    /** What `register_all` registers, in order: the start combo, the stop
        combo, then the push-to-talk key on press and on release. The first
        and third invoke `start_fn`, the second and fourth `stop_fn`; both
        hooks are on the push-to-talk key. */
    function Bindings(combos: HotkeyCombos): (r: seq<Binding>)
      ensures |r| == 4
      ensures forall i :: 0 <= i < |r| ==> r[i].action == if i % 2 == 0 then startFn else stopFn
      ensures r[0].Hotkey? && r[0].combo == combos.start && r[1].Hotkey? && r[1].combo == combos.stop
      ensures r[2].OnPress? && r[3].OnRelease? && r[2].key == r[3].key == combos.pushToTalk
    {
      [Hotkey(combos.start, startFn), Hotkey(combos.stop, stopFn),
       OnPress(combos.pushToTalk, startFn), OnRelease(combos.pushToTalk, stopFn)]
    }

    method RegisterStart(kb: Keyboard, combos: HotkeyCombos)
      modifies kb
      ensures kb.bindings == old(kb.bindings) + [Hotkey(combos.start, startFn)]
      ensures kb.calls == old(kb.calls) + RegisterCalls([Hotkey(combos.start, startFn)])
    {
      kb.Register(Hotkey(combos.start, startFn));
    }

    method RegisterStop(kb: Keyboard, combos: HotkeyCombos)
      modifies kb
      ensures kb.bindings == old(kb.bindings) + [Hotkey(combos.stop, stopFn)]
      ensures kb.calls == old(kb.calls) + RegisterCalls([Hotkey(combos.stop, stopFn)])
    {
      kb.Register(Hotkey(combos.stop, stopFn));
    }

    /** Press starts, release stops. */
    method RegisterPushToTalk(kb: Keyboard, combos: HotkeyCombos)
      modifies kb
      ensures kb.bindings == old(kb.bindings) +
                [OnPress(combos.pushToTalk, startFn), OnRelease(combos.pushToTalk, stopFn)]
      ensures kb.calls == old(kb.calls) +
                RegisterCalls([OnPress(combos.pushToTalk, startFn), OnRelease(combos.pushToTalk, stopFn)])
    {
      kb.Register(OnPress(combos.pushToTalk, startFn));
      kb.Register(OnRelease(combos.pushToTalk, stopFn));
    }

    method RegisterAll(kb: Keyboard, combos: HotkeyCombos)
      modifies kb
      ensures kb.bindings == old(kb.bindings) + Bindings(combos)
      ensures kb.calls == old(kb.calls) + RegisterCalls(Bindings(combos))
    {
      RegisterStart(kb, combos);
      RegisterStop(kb, combos);
      RegisterPushToTalk(kb, combos);
    }
  }

  /** What an event invokes with four registrations, unfolded. */
  lemma TriggeredFour(b: seq<Binding>, ev: KeyEvent)
    requires |b| == 4
    ensures Triggered(b, ev) == Invoked(b[0], ev) + Invoked(b[1], ev) + Invoked(b[2], ev) + Invoked(b[3], ev)
  {
    var b1 := b[1..];
    var b2 := b1[1..];
    var b3 := b2[1..];
    assert b3[1..] == [];
    assert Triggered(b3, ev) == Invoked(b[3], ev);
    assert Triggered(b2, ev) == Invoked(b[2], ev) + Triggered(b3, ev);
    assert Triggered(b1, ev) == Invoked(b[1], ev) + Triggered(b2, ev);
    assert Triggered(b, ev) == Invoked(b[0], ev) + Triggered(b1, ev);
  }

  /** What the manager's bindings invoke. Pressing the push-to-talk key
      invokes `start_fn` through its press hook, after whatever combo the
      held keys match; its release invokes `stop_fn` alone. So a press that
      matches neither combo, followed by the release, starts once and then
      stops once. Completing the start combo on another key invokes
      `start_fn`, and `stop_fn` as well only when both combos are the same
      string. */
  lemma ManagerBindingsDispatch(m: HotkeysManager, combos: HotkeyCombos, held: string, key: string)
    ensures Triggered(m.Bindings(combos), KeyDown(combos.pushToTalk, held)) ==
            (if held == combos.start then [m.startFn] else []) +
            (if held == combos.stop then [m.stopFn] else []) + [m.startFn]
    ensures Triggered(m.Bindings(combos), KeyUp(combos.pushToTalk)) == [m.stopFn]
    ensures held != combos.start && held != combos.stop ==>
              Triggered(m.Bindings(combos), KeyDown(combos.pushToTalk, held)) +
              Triggered(m.Bindings(combos), KeyUp(combos.pushToTalk)) == [m.startFn, m.stopFn]
    ensures key != combos.pushToTalk ==>
              Triggered(m.Bindings(combos), KeyDown(key, combos.start)) ==
              [m.startFn] + (if combos.stop == combos.start then [m.stopFn] else [])
  {
    var b := m.Bindings(combos);
    TriggeredFour(b, KeyDown(combos.pushToTalk, held));
    TriggeredFour(b, KeyUp(combos.pushToTalk));
    TriggeredFour(b, KeyDown(key, combos.start));
  }

  /** `clear_all_hotkeys` leaves exactly the manager's two push-to-talk
      hooks. */
  lemma KeyHooksOfBindings(m: HotkeysManager, combos: HotkeyCombos)
    ensures KeyHooks(m.Bindings(combos)) ==
            [OnPress(combos.pushToTalk, m.startFn), OnRelease(combos.pushToTalk, m.stopFn)]
  {
    var b := m.Bindings(combos);
    var b1 := b[1..];
    var b2 := b1[1..];
    var b3 := b2[1..];
    assert b3[1..] == [];
    assert KeyHooks(b3) == [b[3]];
    assert KeyHooks(b2) == [b[2]] + KeyHooks(b3);
    assert KeyHooks(b1) == KeyHooks(b2);
  }

  /** `stop` as written leaves the push-to-talk hooks registered: after it a
      press still invokes the old manager's `start_fn`, and after
      `restart_with_manager(m2)` a press (matching neither combo) invokes
      both the old manager's `start_fn` and m2's. */
  lemma StaleHooksAfterRestart(m1: HotkeysManager, m2: HotkeysManager, combos: HotkeyCombos, held: string)
    ensures Triggered(KeyHooks(m1.Bindings(combos)), KeyDown(combos.pushToTalk, held)) == [m1.startFn]
    ensures held != combos.start && held != combos.stop ==>
              Triggered(KeyHooks(m1.Bindings(combos)) + m2.Bindings(combos),
                        KeyDown(combos.pushToTalk, held)) == [m1.startFn, m2.startFn]
  {
    var ev := KeyDown(combos.pushToTalk, held);
    var hooks := KeyHooks(m1.Bindings(combos));
    KeyHooksOfBindings(m1, combos);
    var tail := hooks[1..];
    assert tail[1..] == [];
    assert Triggered(tail, ev) == Invoked(hooks[1], ev) == [];
    assert Triggered(hooks, ev) == Invoked(hooks[0], ev) + Triggered(tail, ev) == [m1.startFn];
    TriggeredConcat(hooks, m2.Bindings(combos), ev);
    ManagerBindingsDispatch(m2, combos, held, combos.pushToTalk);
  }

  class HotkeysService {
    var manager: HotkeysManager
    /** The service thread exists and is alive. */
    var running: bool
    /** `_stop_event` is set. */
    var stopEvent: bool

    /** A live service thread has a clear stop event: it keeps running until
        the event is set. */
    ghost predicate Valid()
      reads this
    {
      running ==> !stopEvent
    }

    constructor (manager: HotkeysManager)
      ensures Valid()
      ensures this.manager == manager && !running && !stopEvent
    {
      this.manager := manager;
      running, stopEvent := false, false;
    }

    /** `start`: nothing when the thread is alive or hotkeys are disabled
        (no call into the facility); otherwise the stop event is cleared and
        the spawned thread registers all of the manager's hotkeys. */
    method Start(disabled: bool, kb: Keyboard, combos: HotkeyCombos)
      requires Valid()
      modifies this, kb
      ensures Valid()
      ensures old(running) || disabled ==> unchanged(this) && unchanged(kb)
      ensures !old(running) && !disabled ==>
                && running && !stopEvent && manager == old(manager)
                && kb.bindings == old(kb.bindings) + manager.Bindings(combos)
                && kb.calls == old(kb.calls) + RegisterCalls(manager.Bindings(combos))
    {
      if running {
        return;
      }
      if disabled {
        return;
      }
      stopEvent := false;
      running := true;
      manager.RegisterAll(kb, combos);
    }

    /** `stop`: always sets the stop event, calls `clear_all_hotkeys` once
        (also when disabled), which removes the combos but not the key
        hooks, and drops the thread; safe to repeat. */
    method Stop(kb: Keyboard)
      requires Valid()
      modifies this, kb
      ensures Valid()
      ensures stopEvent && !running && manager == old(manager)
      ensures kb.bindings == KeyHooks(old(kb.bindings)) && kb.calls == old(kb.calls) + [ClearAll]
    {
      stopEvent := true;
      kb.ClearAllHotkeys();
      running := false;
    }

    /** `restart_with_manager`: stop, swap the manager, start again. The
        facility then holds the key hooks that were registered before,
        followed by the new manager's bindings unless hotkeys are disabled. */
    method RestartWithManager(m: HotkeysManager, disabled: bool, kb: Keyboard, combos: HotkeyCombos)
      requires Valid()
      modifies this, kb
      ensures Valid()
      ensures manager == m && running == !disabled && stopEvent == disabled
      ensures kb.bindings == KeyHooks(old(kb.bindings)) + (if disabled then [] else m.Bindings(combos))
      ensures kb.calls == old(kb.calls) + [ClearAll] +
                          (if disabled then [] else RegisterCalls(m.Bindings(combos)))
    {
      Stop(kb);
      manager := m;
      Start(disabled, kb, combos);
    }

    /** `stop` as evidently intended: `unhook_all` removes the key hooks as
        well, so afterwards no keyboard event invokes anything. */
    method StopUnhookingAll(kb: Keyboard)
      requires Valid()
      modifies this, kb
      ensures Valid()
      ensures stopEvent && !running && manager == old(manager)
      ensures kb.bindings == [] && kb.calls == old(kb.calls) + [KeyboardCall.UnhookAll]
      ensures forall ev :: Triggered(kb.bindings, ev) == []
    {
      stopEvent := true;
      kb.UnhookAll();
      running := false;
    }

    /** `restart_with_manager` over the corrected stop: the facility holds
        only the new manager's bindings, so a push-to-talk press invokes the
        new `start_fn` alone, or nothing when hotkeys are disabled. */
    method RestartUnhookingAll(m: HotkeysManager, disabled: bool, kb: Keyboard, combos: HotkeyCombos)
      requires Valid()
      modifies this, kb
      ensures Valid()
      ensures manager == m && running == !disabled && stopEvent == disabled
      ensures kb.bindings == if disabled then [] else m.Bindings(combos)
      ensures Triggered(kb.bindings, KeyDown(combos.pushToTalk, combos.pushToTalk)) ==
                if disabled then []
                else (if combos.pushToTalk == combos.start then [m.startFn] else []) +
                     (if combos.pushToTalk == combos.stop then [m.stopFn] else []) + [m.startFn]
      ensures kb.calls == old(kb.calls) + [KeyboardCall.UnhookAll] +
                          (if disabled then [] else RegisterCalls(m.Bindings(combos)))
    {
      StopUnhookingAll(kb);
      manager := m;
      Start(disabled, kb, combos);
      ManagerBindingsDispatch(m, combos, combos.pushToTalk, combos.pushToTalk);
    }
  }

  /** Starting then stopping an enabled service registers the four bindings
      once each and leaves the two push-to-talk hooks behind; a disabled
      service makes no registration at all. Restarting with a second manager
      leaves a press invoking both managers' `start_fn`, and the corrected
      restart only the new one's. */
  method StartStopScenario()
  {
    var kb := new Keyboard();
    var m := new HotkeysManager(Callback(0), Callback(1));
    var combos := HotkeyCombos("ctrl+shift+a", "ctrl+shift+b", "alt+p");
    var svc := new HotkeysService(m);
    svc.Start(false, kb, combos);
    assert svc.running && kb.bindings == m.Bindings(combos);
    svc.Start(false, kb, combos);
    assert kb.bindings == m.Bindings(combos);
    svc.Stop(kb);
    KeyHooksOfBindings(m, combos);
    assert kb.bindings == [OnPress("alt+p", Callback(0)), OnRelease("alt+p", Callback(1))];
    assert |kb.calls| == 5;

    var quiet := new Keyboard();
    var off := new HotkeysService(m);
    off.Start(true, quiet, combos);
    assert quiet.calls == [] && !off.running;

    var m2 := new HotkeysManager(Callback(2), Callback(3));
    var stale := new Keyboard();
    var first := new HotkeysService(m);
    first.Start(false, stale, combos);
    first.RestartWithManager(m2, false, stale, combos);
    StaleHooksAfterRestart(m, m2, combos, "alt+p");
    assert Triggered(stale.bindings, KeyDown("alt+p", "alt+p")) == [Callback(0), Callback(2)];

    var clean := new Keyboard();
    var second := new HotkeysService(m);
    second.Start(false, clean, combos);
    second.RestartUnhookingAll(m2, false, clean, combos);
    assert Triggered(clean.bindings, KeyDown("alt+p", "alt+p")) == [Callback(2)];
  }
}
