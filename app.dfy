/**
 * The program's shared state: the module-level listener handle written by the
 * listener thread, the bindings it registered, and the stop requests the
 * tray's Exit action sends.
 */
module TrayApp {
  import opened Wrappers
  import opened Hotkeys

  /** A live reference to the operating system's global hotkey hook. */
  datatype ListenerHandle = ListenerHandle(id: nat)

  class HotkeyApp {
    /** The module-level listener reference; unset until a listener is registered. */
    var listener: Option<ListenerHandle>
    /** The action table registered with the hotkey hook. */
    var bindings: map<string, string>
    /** The hook is registered and the listener thread is waiting on it. */
    var listening: bool
    /** How many times `stop` was called on the listener. */
    var listenerStops: nat
    /** How many times `stop` was called on the tray icon. */
    var trayStops: nat

    /** A listener exists only for a non-empty table, and only a registered listener listens. */
    ghost predicate Valid()
      reads this
    {
      && (listener.Some? <==> bindings != map[])
      && (listening ==> listener.Some?)
    }

    constructor ()
      ensures Valid()
      ensures listener == None && bindings == map[] && !listening
      ensures listenerStops == 0 && trayStops == 0
    {
      listener := None;
      bindings := map[];
      listening := false;
      listenerStops := 0;
      trayStops := 0;
    }

    /**
     * The listener thread's body, up to the blocking wait: builds the action
     * table, returns at once when it is empty, and otherwise asks the hook
     * library to register it. `accepted` is whether the library accepted the
     * table (a rejection raises, is logged, and leaves nothing registered);
     * `handle` is the listener it returns.
     */
    method RunPynputListener(hotkeys: map<string, string>, handle: ListenerHandle, accepted: bool)
      requires Valid()
      modifies this
      ensures Valid()
      ensures hotkeys == map[] || !accepted ==>
        listener == old(listener) && bindings == old(bindings) && listening == old(listening)
      ensures hotkeys != map[] && accepted ==>
        listener == Some(handle) && BindsOwnPath(bindings, hotkeys) && listening
      ensures listenerStops == old(listenerStops) && trayStops == old(trayStops)
    {
      var actions := CreateHotkeyActions(hotkeys);
      if actions == map[] {
        return;
      }
      if !accepted {
        return;
      }
      bindings := actions;
      listener := Some(handle);
      listening := true;
    }

    /**
     * The tray's Exit action: stops the listener only when a handle is set
     * (errors from `stop` are swallowed), then always stops the tray.
     */
    method OnExitClicked()
      requires Valid()
      modifies this
      ensures Valid()
      ensures listener == old(listener) && bindings == old(bindings)
      ensures !listening
      ensures listenerStops == old(listenerStops) + (if old(listener).Some? then 1 else 0)
      ensures trayStops == old(trayStops) + 1
    {
      if listener.Some? {
        listening := false;
        listenerStops := listenerStops + 1;
      }
      trayStops := trayStops + 1;
    }
  }

  /**
   * An empty configuration: nothing is registered, and Exit, clicked twice,
   * never calls `stop` on a listener but stops the tray each time.
   */
  method EmptyConfigurationScenario(handle: ListenerHandle)
    returns (registered: bool, listenerStops: nat, trayStops: nat)
    ensures !registered && listenerStops == 0 && trayStops == 2
  {
    var app := new HotkeyApp();
    app.RunPynputListener(map[], handle, true);
    app.OnExitClicked();
    app.OnExitClicked();
    registered, listenerStops, trayStops := app.listener.Some?, app.listenerStops, app.trayStops;
  }

  /**
   * A configuration the hook library rejects: no handle is set, so Exit stops
   * only the tray.
   */
  method RejectedRegistrationScenario(hotkeys: map<string, string>, handle: ListenerHandle)
    returns (registered: bool, listenerStops: nat, trayStops: nat)
    ensures !registered && listenerStops == 0 && trayStops == 1
  {
    var app := new HotkeyApp();
    app.RunPynputListener(hotkeys, handle, false);
    app.OnExitClicked();
    registered, listenerStops, trayStops := app.listener.Some?, app.listenerStops, app.trayStops;
  }

  /**
   * A non-empty configuration that registers: the listener holds exactly the
   * configured bindings, and Exit stops it once and stops the tray.
   */
  method ConfiguredScenario(hotkeys: map<string, string>, handle: ListenerHandle)
    returns (bindings: map<string, string>, stillListening: bool, listenerStops: nat, trayStops: nat)
    requires hotkeys != map[]
    ensures BindsOwnPath(bindings, hotkeys)
    ensures !stillListening && listenerStops == 1 && trayStops == 1
  {
    var app := new HotkeyApp();
    app.RunPynputListener(hotkeys, handle, true);
    app.OnExitClicked();
    bindings, stillListening := app.bindings, app.listening;
    listenerStops, trayStops := app.listenerStops, app.trayStops;
  }
}
