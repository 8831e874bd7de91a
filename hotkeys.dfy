/**
 * The hotkey action table (`create_hotkey_actions`) and what firing one of its
 * hotkeys does. An action is modelled by the path it launches.
 */
module Hotkeys {
  import opened Wrappers
  import opened Launcher

  /** Every configured hotkey, and no other, is bound to its own configured path. */
  predicate BindsOwnPath(actions: map<string, string>, hotkeys: map<string, string>) {
    && actions.Keys == hotkeys.Keys
    && forall hotkey :: hotkey in hotkeys ==> actions[hotkey] == hotkeys[hotkey]
  }

  /**
   * Builds the action table from the configuration, one entry per configured
   * hotkey; an empty configuration gives an empty table.
   */
  method CreateHotkeyActions(hotkeys: map<string, string>) returns (actions: map<string, string>)
    ensures BindsOwnPath(actions, hotkeys)
    ensures actions == map[] <==> hotkeys == map[]
  {
    actions := map[];
    if hotkeys == map[] {
      return;
    }
    var pending := hotkeys.Keys;
    while pending != {}
      invariant pending <= hotkeys.Keys
      invariant actions.Keys == hotkeys.Keys - pending
      invariant forall hotkey :: hotkey in actions ==> actions[hotkey] == hotkeys[hotkey]
      decreases pending
    {
      var hotkey :| hotkey in pending;
      actions := actions[hotkey := hotkeys[hotkey]];
      pending := pending - {hotkey};
    }
  }

  /**
   * The listener firing `hotkey`: a registered hotkey runs its action, which
   * launches the path it was bound to; an unregistered one does nothing.
   */
  function Fire(platform: Platform, actions: map<string, string>, hotkey: string, outcome: SpawnOutcome)
    : (r: Option<Launch>)
    ensures r.Some? <==> hotkey in actions
    ensures r.Some? && r.value.request.Some? ==> r.value.request.value.argv == [actions[hotkey]]
  {
    if hotkey in actions then Some(OpenApplication(platform, actions[hotkey], outcome)) else None
  }

  /** In a table built from the configuration, a hotkey launches exactly its own configured path. */
  lemma FireLaunchesConfiguredPath(
    platform: Platform, actions: map<string, string>, hotkeys: map<string, string>, hotkey: string,
    outcome: SpawnOutcome)
    requires BindsOwnPath(actions, hotkeys)
    ensures hotkey in hotkeys ==>
      Fire(platform, actions, hotkey, outcome) == Some(OpenApplication(platform, hotkeys[hotkey], outcome))
    ensures hotkey !in hotkeys ==> Fire(platform, actions, hotkey, outcome) == None
  {
  }

  /** Firing one hotkey never launches another hotkey's command when their paths differ. */
  lemma FireLaunchesOnlyItsOwnCommand(
    platform: Platform, actions: map<string, string>, hotkeys: map<string, string>, a: string, b: string,
    outcome: SpawnOutcome)
    requires BindsOwnPath(actions, hotkeys)
    requires a in hotkeys && b in hotkeys && hotkeys[a] != hotkeys[b]
    ensures var ra, rb := Fire(platform, actions, a, outcome).value.request, Fire(platform, actions, b, outcome).value.request;
      ra.Some? && rb.Some? ==> ra != rb
  {
    FireLaunchesConfiguredPath(platform, actions, hotkeys, a, outcome);
    FireLaunchesConfiguredPath(platform, actions, hotkeys, b, outcome);
  }

  /**
   * A single binding to a terminal: on either platform, firing it spawns that
   * terminal, without a new console.
   */
  lemma TerminalBindingExample(platform: Platform, actions: map<string, string>)
    requires BindsOwnPath(actions, map["ctrl+alt+t" := "/usr/bin/xterm"])
    ensures Fire(platform, actions, "ctrl+alt+t", Spawned) ==
      Some(Launch(Some(LaunchRequest(["/usr/bin/xterm"], false)), Launched))
    ensures Fire(platform, actions, "ctrl+alt+x", Spawned) == None
  {
    var terminal := "/usr/bin/xterm";
    TerminalExample();
    assert ReachesSpawn(platform, terminal);
    assert actions["ctrl+alt+t"] == terminal;
    assert OpenApplication(platform, terminal, Spawned) == Launch(Some(LaunchRequest([terminal], false)), Launched);
    assert "ctrl+alt+x" != "ctrl+alt+t" by {
      assert "ctrl+alt+x"[9] != "ctrl+alt+t"[9];
    }
  }
}
